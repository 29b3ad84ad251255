/**
  Files with a closing brace in a name.  Counting braces cuts such a file in the wrong places, so the
  readers are handed parts of objects, and parts that begin inside a string.  Whatever they make of
  those, no stream they load has a closing brace in a name: the saved list never comes back.
 */
module StreamFileBraces {
  import opened StreamTypes
  import opened Decimal
  import opened Text
  import opened JsonFields
  import opened JsonDocument
  import opened JsonParts
  import opened StreamConfig
  import opened StreamConfigRoundTrip
  import opened StreamFile
  import StreamIdText

  // ---- the file is tidy ------------------------------------------------------------------------

  lemma {:induction false} SdpIsSolid(s: SdpSession)
    ensures forall m :: m in SdpMembers(s) ==> Solid(m.value)
  {
    hide SessionMembers, AddressMembers, FormatMembers, ClockMembers;
    SessionIsSolid(s);
    AddressIsSolid(s);
    FormatIsSolid(s);
    ClockIsSolid(s);
  }

  lemma {:induction false} NumberIsSolid(n: nat)
    ensures Solid(NumberValue(n))
  {
  }

  lemma {:induction false} IntegerIsSolid(n: int)
    ensures Solid(IntegerValue(n))
  {
  }

  lemma {:induction false} SessionIsSolid(s: SdpSession)
    ensures forall m :: m in SessionMembers(s) ==> Solid(m.value)
  {
    hide NumberValue;
    NumberIsSolid(s.sessionId);
    NumberIsSolid(s.sessionVersion);
  }

  lemma {:induction false} AddressIsSolid(s: SdpSession)
    ensures forall m :: m in AddressMembers(s) ==> Solid(m.value)
  {
    hide NumberValue;
    NumberIsSolid(s.ttl);
    NumberIsSolid(s.port);
    NumberIsSolid(s.payloadType);
  }

  lemma {:induction false} FormatIsSolid(s: SdpSession)
    ensures forall m :: m in FormatMembers(s) ==> Solid(m.value)
  {
    hide NumberValue;
    NumberIsSolid(s.sampleRate);
    NumberIsSolid(s.numChannels);
    NumberIsSolid(s.ptimeUs);
    NumberIsSolid(s.framecount);
  }

  lemma {:induction false} ClockIsSolid(s: SdpSession)
    ensures forall m :: m in ClockMembers(s) ==> Solid(m.value)
  {
    hide IntegerValue;
    IntegerIsSolid(s.ptpDomain);
  }

  lemma {:induction false} MappingIsSolid(m: ChannelMapping)
    ensures forall x :: x in MappingMembers(m) ==> Solid(x.value)
  {
    hide NumberValue, NumberList, Flat, StreamIdText.IdText;
    NumberIsSolid(m.streamChannelCount);
    NumberIsSolid(m.streamChannelOffset);
    NumberIsSolid(m.deviceChannelStart);
    NumberIsSolid(m.deviceChannelCount);
  }

  lemma {:induction false} FlagIsSolid(b: bool)
    ensures Solid(FlagValue(b))
  {
  }

  lemma {:induction false} ObjectIsSolid(ms: seq<Member>, indent: nat)
    requires forall m :: m in ms ==> Solid(m.value)
    ensures Solid(Object(ms, indent))
  {
  }

  lemma {:induction false} ConfigIsSolid(c: PersistedConfig)
    ensures Solid(Object(ConfigMembers(c), 4)) && Good(Object(ConfigMembers(c), 4))
  {
    hide NumberValue, FlagValue, SdpMembers, MappingMembers, Solid, Good;
    SdpIsSolid(c.sdp);
    ObjectIsSolid(SdpMembers(c.sdp), 6);
    MappingIsSolid(c.mapping);
    ObjectIsSolid(MappingMembers(c.mapping), 6);
    FlagIsSolid(c.enabled);
    FlagIsSolid(c.isTransmit);
    NumberIsSolid(c.createdTimestamp);
    NumberIsSolid(c.modifiedTimestamp);
    NumberIsSolid(c.jitterBufferDepth);
    TextIsSolid(c.description);
    TextIsSolid(c.networkInterface);
    ObjectIsSolid(ConfigMembers(c), 4);
    ConfigIsGood(c);
    ObjectIsGood(ConfigMembers(c), 4);
  }

  lemma {:induction false} TextIsSolid(raw: string)
    ensures Solid(Value.Text(raw))
  {
  }

  lemma {:induction false} ObjectIsGood(ms: seq<Member>, indent: nat)
    requires ms != [] && GoodMembers(ms)
    ensures Good(Object(ms, indent))
  {
  }

  lemma {:induction false} StreamsAreTidy(cs: seq<PersistedConfig>, rest: string, key: string)
    requires IsKey(key) && Ends(rest) && Tidy(rest, key)
    ensures Tidy(StreamTexts(cs) + rest, key)
    decreases |cs|
  {
    hide Tidy, Ends, IsKey, Render, Good, Solid, ConfigMembers;
    if cs == [] {
      assert "" + rest == rest;
    } else {
      var v := Object(ConfigMembers(cs[0]), 4);
      ConfigIsSolid(cs[0]);
      var next := if |cs| == 1 then rest else ",\n" + (StreamTexts(cs[1..]) + rest);
      if |cs| > 1 {
        StreamsAreTidy(cs[1..], rest, key);
        TidyPlain(",\n", StreamTexts(cs[1..]) + rest, key);
        CommaEnds(StreamTexts(cs[1..]) + rest);
      }
      TidyValue(v, next, key);
      TidyPlain("    ", Render(v) + next, key);
      assert StreamTexts(cs) + rest == "    " + (Render(v) + next);
    }
  }

  const ENDING := "]\n}"

  lemma {:induction false} EndingEnds()
    ensures Ends("\n  " + ENDING)
  {
    var s := "\n  " + ENDING;
    assert DropSpaces(ENDING) == ENDING;
    DropSpacesPast("\n  ", ENDING);
  }

  ghost predicate AllTidy(s: string) { forall key :: IsKey(key) ==> Tidy(s, key) }

  lemma {:induction false} FileIsTidy(cs: seq<PersistedConfig>)
    ensures AllTidy(Content(cs) + ENDING)
  {
    hide Tidy, Ends, IsKey, StreamTexts;
    var rest := "\n  " + ENDING;
    assert Content(cs) + ENDING == "\n" + (StreamTexts(cs) + rest);
    EndingEnds();
    forall key | IsKey(key)
      ensures Tidy(Content(cs) + ENDING, key)
    {
      NothingToFind(key);
      TidyPlain(rest, "", key);
      assert rest + "" == rest;
      StreamsAreTidy(cs, rest, key);
      TidyPlain("\n", StreamTexts(cs) + rest, key);
    }
  }

  lemma {:induction false} NothingToFind(key: string)
    ensures Tidy("", key)
  {
  }

  // ---- what the readers are handed is cut out of it --------------------------------------------

  lemma {:induction false} ContentIsPart(cs: seq<PersistedConfig>)
    ensures var t := StreamsContent(ToJson(cs)); t.Some? ==> PartOf(t.value, Content(cs) + ENDING)
  {
    hide Content, FindText, Find, CloseAt;
    var after := Content(cs) + ENDING;
    var json := OPENING + (STREAMS_KEY + (": " + (['['] + after)));
    assert ToJson(cs) == json;
    KeyIsFound(": " + (['['] + after));
    BracketIsFound(after);
    var r := CloseAt(after, '[', ']', 1);
    if r.Some? { assert after == "" + after[..r.value] + after[r.value..]; }
  }

  lemma {:induction false} PieceIsPart(s: string, depth: int, current: string, k: nat)
    requires k < |SplitObjects(s, depth, current)|
    ensures PartOf(SplitObjects(s, depth, current)[k], current + s)
    decreases |s|
  {
    if s[0] == '}' && depth == 1 {
      if k == 0 {
        assert current + s == "" + (current + [s[0]]) + s[1..];
      } else {
        PieceIsPart(s[1..], 0, "", k - 1);
        var p := SplitObjects(s[1..], 0, "")[k - 1];
        var a, b :| "" + s[1..] == a + p + b;
        assert current + s == current + [s[0]] + ("" + s[1..]);
        assert current + s == (current + [s[0]] + a) + p + b;
      }
    } else {
      PieceIsPart(s[1..], Deeper(s[0], '{', '}', depth), current + [s[0]], k);
      assert current + [s[0]] + s[1..] == current + s;
    }
  }

  // ---- so nothing they read holds a closing brace ----------------------------------------------

  lemma {:induction false} StringAvoids(u: string, s: string, key: string, fallback: string)
    requires Shut(u) && PartOf(u, s) && AllTidy(s) && IsKey(key) && '}' !in fallback
    ensures '}' !in Or(ExtractString(u, key), fallback)
  {
    hide Shut, PartOf, Tidy, ExtractString;
    NoBraceIsRead(u, s, key);
  }

  lemma {:induction false} SdpIsUnbraced(u: string, s: string)
    requires Shut(u) && PartOf(u, s) && AllTidy(s)
    ensures SdpAvoids(SdpFromJson(u), '}')
  {
    hide Shut, PartOf, AllTidy, ExtractString, ExtractUInt64, ExtractInt, NarrowOr, PacketTimeOf, IsKey;
    SessionKeys();
    AddressKeys();
    FormatKeys();
    ClockKeys();
    var d := BlankSession;
    StringAvoids(u, s, "sessionName", d.sessionName);
    StringAvoids(u, s, "sessionInfo", d.sessionInfo);
    StringAvoids(u, s, "originUsername", d.originUsername);
    StringAvoids(u, s, "originAddress", d.originAddress);
    StringAvoids(u, s, "connectionAddress", d.connectionAddress);
    StringAvoids(u, s, "encoding", d.encoding);
    StringAvoids(u, s, "sourceAddress", d.sourceAddress);
    StringAvoids(u, s, "ptpMasterMAC", d.ptpMasterMac);
    StringAvoids(u, s, "mediaClockType", d.mediaClockType);
    StringAvoids(u, s, "direction", d.direction);
  }

  lemma {:induction false} MappingIsUnbraced(u: string, s: string)
    requires Shut(u) && PartOf(u, s) && AllTidy(s)
    ensures MappingFromJson(u).Read? ==> '}' !in MappingFromJson(u).value.streamName
  {
    hide Shut, PartOf, AllTidy, ExtractString, NarrowOr, RoutesFromJson, StreamIdText.ParseId, IsKey;
    MappingKeys();
    StringAvoids(u, s, "streamName", "");
  }

  lemma {:induction false} FieldIsPart(u: string, s: string, key: string)
    requires PartOf(u, s) && IsKey(key)
    ensures var t := ObjectField(u, key); t.Some? ==> Shut(t.value) && PartOf(t.value, s)
  {
    hide Search, Shut, PartOf;
    if ObjectField(u, key).Some? {
      BracedPart(u, key);
      PartOfPart(ObjectField(u, key).value, u, s);
    }
  }

  lemma {:induction false} ReadIsUnbraced(u: string, s: string, resolve: Option<string> -> string)
    requires PartOf(u, s) && AllTidy(s)
    ensures ConfigFromJson(u, resolve).Read? ==> Unbraced(ConfigFromJson(u, resolve).value)
  {
    hide Shut, PartOf, AllTidy, ExtractString, ExtractBool, ExtractUInt64, ObjectField, SdpFromJson, MappingFromJson,
         RoleOf,
         IsKey, PersistedConfig.IsValid;
    ConfigKeys();
    FieldIsPart(u, s, "sdp");
    FieldIsPart(u, s, "mapping");
    var sdp, mapping := ObjectField(u, "sdp"), ObjectField(u, "mapping");
    if sdp.Some? { SdpIsUnbraced(sdp.value, s); }
    if mapping.Some? { MappingIsUnbraced(mapping.value, s); }
  }

  predicate AllUnbraced(cs: seq<PersistedConfig>) { forall i :: 0 <= i < |cs| ==> Unbraced(cs[i]) }

  lemma {:induction false} AllAreUnbraced(objects: seq<string>, s: string, resolve: Option<string> -> string)
    requires AllTidy(s) && forall i :: 0 <= i < |objects| ==> PartOf(objects[i], s)
    ensures var r := ConfigsFrom(objects, resolve); r.Read? ==> AllUnbraced(r.value)
    decreases |objects|
  {
    hide AllTidy, PartOf, ConfigFromJson, Unbraced;
    if objects == [] {
    } else {
      ReadIsUnbraced(objects[0], s, resolve);
      AllAreUnbraced(objects[1..], s, resolve);
    }
  }

  /** Whatever was saved, no stream loaded from the file has a closing brace in a string of its nested objects. */
  lemma {:induction false} LoadedIsUnbraced(cs: seq<PersistedConfig>, resolve: Option<string> -> string)
    ensures var r := FromJson(ToJson(cs), resolve); r.Read? ==> AllUnbraced(r.value)
  {
    hide ToJson, StreamsContent, SplitObjects, ConfigsFrom, AllTidy, PartOf, Content, Unbraced;
    var t := StreamsContent(ToJson(cs));
    if t.Some? {
      var s, objects := Content(cs) + ENDING, SplitObjects(t.value, 0, "");
      ContentIsPart(cs);
      FileIsTidy(cs);
      assert "" + t.value == t.value;
      forall k | 0 <= k < |objects|
        ensures PartOf(objects[k], s)
      {
        PieceIsPart(t.value, 0, "", k);
        PartOfPart(objects[k], t.value, s);
      }
      AllAreUnbraced(objects, s, resolve);
    }
  }

  /** So a list with a closing brace in one of those strings never loads as it was saved. */
  lemma {:induction false} BracedListIsLost(cs: seq<PersistedConfig>, resolve: Option<string> -> string)
    requires !AllUnbraced(cs)
    ensures FromJson(ToJson(cs), resolve) != Read(AllRestored(cs, resolve))
  {
    hide FromJson, ToJson;
    LoadedIsUnbraced(cs, resolve);
    var i :| 0 <= i < |cs| && !Unbraced(cs[i]);
    assert !Unbraced(AllRestored(cs, resolve)[i]);
  }
}
