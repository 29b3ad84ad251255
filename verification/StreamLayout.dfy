/**
  The text of one saved stream around the two places that matter to the readers of a file cut in the wrong
  places: its description, the one string of it that is not inside a nested object and comes before them,
  and its session, without which nothing is loaded.
 */
module StreamLayout {
  import opened StreamTypes
  import opened Decimal
  import opened JsonEscape
  import opened JsonFields
  import opened JsonDocument
  import opened JsonHits
  import opened StreamConfig
  import opened StreamConfigRoundTrip
  import opened StreamFile
  import opened StreamFileStrings
  import StreamIdText

  /** Up to the description, from there to the session, and the rest but for the last brace. */
  function Head(c: PersistedConfig): string {
    "{\n" + Spaces(6) + (Before(ConfigMembers(c), 4, 2) + Cut("description", ""))
  }

  function Mid(c: PersistedConfig): string {
    ['"'] + (",\n" + (Spaces(6) + Before(ConfigMembers(c)[3..], 4, 4)))
  }

  function TailIn(c: PersistedConfig): string { RenderMembers(ConfigMembers(c)[7..], 4) + ("\n" + Spaces(4)) }

  function Tail(c: PersistedConfig): string { TailIn(c) + ['}'] }

  lemma {:induction false} Assemble(a: string, b: string, cut: string, e: string, m: string, r: string, z: string)
    ensures a + ((b + ((cut + e + ['"']) + (",\n" + (m + r)))) + (z + "")) ==
      (a + (b + cut)) + (e + ((['"'] + (",\n" + m)) + (r + z)))
  {
  }

  lemma {:induction false} TextMember(key: string, raw: string)
    ensures RenderMember(Member(key, Value.Text(raw))) == Cut(key, "") + Escape(raw) + ['"']
  {
    hide Escape;
    NothingEscaped();
  }

  lemma {:induction false} NothingEscaped()
    ensures Escape("") == ""
  {
  }

  lemma {:induction false} Layout(c: PersistedConfig)
    ensures ConfigText(c) == Head(c) + (Escape(c.description) + (Mid(c) + Tail(c)))
  {
    hide Render, RenderMembers, RenderMember, Before, Spaces, Cut, Escape, SdpMembers, MappingMembers, NumberValue;
    var ms := ConfigMembers(c);
    var a, b, m, r := "{\n" + Spaces(6), Before(ms, 4, 2), Before(ms[3..], 4, 4), RenderMembers(ms[7..], 4);
    ObjectText(ms, 4, "");
    MembersFrom(ms, 4, 2);
    MoreMembers(ms[2..], 4, "");
    assert ms[2..][1..] == ms[3..] && ms[3..][4..] == ms[7..];
    MembersFrom(ms[3..], 4, 4);
    TextMember("description", c.description);
    assert RenderMembers(ms[2..], 4) + "" == RenderMembers(ms[2..], 4);
    assert RenderMembers(ms[3..], 4) + "" == RenderMembers(ms[3..], 4);
    var cut, e := Cut("description", ""), Escape(c.description);
    assert RenderMembers(ms[2..], 4) == (cut + e + ['"']) + (",\n" + (Spaces(6) + m + r)) by {
      assert Spaces(6) + (m + r) == Spaces(6) + m + r;
    }
    Assemble(a, b, cut, e, Spaces(6) + m, r, Closing(4));
    assert r + Closing(4) == Tail(c) by { assert ("\n" + Spaces(4)) + ['}'] == "\n" + Spaces(4) + "}"; }
    assert ConfigText(c) + "" == ConfigText(c);
  }

  // ---- braces ----------------------------------------------------------------------------------

  /** A text that only lifts the brace counter, and never takes it below where it was. */
  ghost predicate Rises(s: string) { Low(s, '{', '}') == 0 <= Net(s, '{', '}') }

  lemma {:induction false} RisesConcat(a: string, b: string)
    requires Rises(a) && Rises(b)
    ensures Rises(a + b)
  {
    hide Net, Low;
    NetOfConcat(a, b, '{', '}');
  }

  lemma {:induction false} PlainRises(s: string)
    requires '}' !in s
    ensures Rises(s)
  {
    hide Net, Low;
    OnlyUp(s, '{', '}');
  }

  lemma {:induction false} BracedRises(s: string)
    requires Rises(s)
    ensures Rises(['{'] + s + ['}'])
  {
    hide Net, Low;
    One('{', '{', '}');
    One('}', '{', '}');
    NetOfConcat(['{'], s, '{', '}');
    NetOfConcat(['{'] + s, ['}'], '{', '}');
  }

  lemma {:induction false} FlagAvoids(b: bool, c: char)
    requires c in "{}[]"
    ensures Avoids(Render(FlagValue(b)), c)
  {
  }

  lemma {:induction false} FlagsAreClean(c: PersistedConfig, x: char)
    requires x in "{}"
    ensures MembersClean(ConfigMembers(c)[..2], x)
  {
    hide FlagValue, SdpMembers, MappingMembers, NumberValue, IsWord, Render, Avoids;
    FlagAvoids(c.enabled, x);
    FlagAvoids(c.isTransmit, x);
    ConfigIsGood(c);
    var ms := ConfigMembers(c);
    WordsOf(ms);
    assert ms[..2] == [ms[0], ms[1]] && ms[0] in ms && ms[1] in ms;
  }

  lemma {:induction false} MiddleIsClean(c: PersistedConfig)
    requires '}' !in c.networkInterface
    ensures MembersClean(ConfigMembers(c)[3..][..4], '}')
  {
    hide ConfigMembers, IsWord, Render, Avoids;
    ConfigIsGood(c);
    ConfigKeysDiffer(c);
    var ms := ConfigMembers(c);
    WordsOf(ms);
    forall i | 3 <= i < 7
      ensures Avoids(Render(ms[i].value), '}')
    {
      MiddleAvoids(c, i);
    }
    assert ms[3..][..4] == ms[3..7];
  }

  lemma {:induction false} MiddleAvoids(c: PersistedConfig, i: nat)
    requires 3 <= i < 7 && '}' !in c.networkInterface
    ensures Avoids(Render(ConfigMembers(c)[i].value), '}')
  {
    hide FlagValue, SdpMembers, MappingMembers, NumberValue, Render, Avoids;
    NumberAvoids(c.createdTimestamp, '}');
    NumberAvoids(c.modifiedTimestamp, '}');
    NumberAvoids(c.jitterBufferDepth, '}');
    TextAvoids(c.networkInterface, '}');
  }

  lemma {:induction false} MidHasNoBrace(c: PersistedConfig)
    requires '}' !in c.networkInterface
    ensures '}' !in Mid(c)
  {
    hide Before, Spaces, ConfigMembers;
    MiddleIsClean(c);
    ConfigKeysDiffer(c);
    BeforeAvoids(ConfigMembers(c)[3..], 4, 4, '}');
  }

  lemma {:induction false} HeadBraces(c: PersistedConfig)
    ensures '}' !in Head(c) && Net(Head(c), '{', '}') == 1
  {
    hide Before, Spaces, ConfigMembers, Net, Low, Cut;
    FlagsAreClean(c, '{');
    FlagsAreClean(c, '}');
    ConfigKeysDiffer(c);
    BeforeAvoids(ConfigMembers(c), 4, 2, '{');
    BeforeAvoids(ConfigMembers(c), 4, 2, '}');
    DescriptionCut();
    var rest := "\n" + Spaces(6) + (Before(ConfigMembers(c), 4, 2) + Cut("description", ""));
    assert Head(c) == ['{'] + rest;
    PlainIsBalanced(rest, '{', '}');
    One('{', '{', '}');
    NetOfConcat(['{'], rest, '{', '}');
  }

  lemma {:induction false} DescriptionCut()
    ensures '{' !in Cut("description", "") && '}' !in Cut("description", "")
  {
  }

  lemma {:induction false} StringsOfTwo(ms: seq<Member>)
    requires |ms| == 2
    ensures StringsOf(ms) == Strings(ms[0].value) + Strings(ms[1].value)
  {
    hide Strings;
    assert ms == [ms[0]] + [ms[1]];
    StringsConcat([ms[0]], [ms[1]]);
    JustOne(ms[0]);
    JustOne(ms[1]);
  }

  lemma {:induction false} TailRises(c: PersistedConfig)
    requires Unbraced(c)
    ensures Rises(TailIn(c))
  {
    hide Net, Low, Rises, RenderMembers, SdpMembers, MappingMembers, Spaces, StringsOf, NeutralMembers, SdpAvoids,
         SdpStrings, StreamIdText.IdText;
    var ms := ConfigMembers(c);
    var two := ms[7..];
    ConfigIsNeutral(c, '{', '}');
    assert NeutralMembers(two, '{', '}') by { LaterAreNeutral(ms, 7); }
    MembersAreAlike(two, 4, '{', '}');
    StringsOfTwo(two);
    StringsOfSdp(c.sdp);
    StringsOfMapping(c.mapping);
    SdpStringsAvoid(c.sdp, '}');
    IdIsClean(c.mapping.streamId, '}');
    var names := StreamIdText.IdText(c.mapping.streamId) + c.mapping.streamName;
    PlainRises(SdpStrings(c.sdp));
    PlainRises(names);
    BracedRises(SdpStrings(c.sdp));
    BracedRises(names);
    RisesConcat(['{'] + SdpStrings(c.sdp) + ['}'], ['{'] + names + ['}']);
    AlikeRises(RenderMembers(two, 4), StringsOf(two));
    PlainRises("\n" + Spaces(4));
    RisesConcat(RenderMembers(two, 4), "\n" + Spaces(4));
  }

  lemma {:induction false} LaterAreNeutral(ms: seq<Member>, k: nat)
    requires k <= |ms| && NeutralMembers(ms, '{', '}')
    ensures NeutralMembers(ms[k..], '{', '}')
  {
    hide Neutral, IsWord;
  }

  lemma {:induction false} AlikeRises(a: string, b: string)
    requires Alike(a, b, '{', '}') && Rises(b)
    ensures Rises(a)
  {
  }

  /** The whole inside rises if the description does. */
  lemma {:induction false} InsideRises(c: PersistedConfig)
    requires Unbraced(c) && '}' !in c.networkInterface && Low(Escape(c.description), '{', '}') == 0
    ensures Rises(Inside(ConfigMembers(c), 4))
  {
    hide Net, Low, Inside, ConfigMembers, SdpAvoids, SdpStrings, StringsOf, StreamIdText.IdText, NeutralMembers, Escape;
    ConfigIsNeutral(c, '{', '}');
    MembersAreAlike(ConfigMembers(c), 4, '{', '}');
    InsideIsAlike(ConfigMembers(c), 4, '{', '}');
    StringsOfConfig(c);
    SdpStringsAvoid(c.sdp, '}');
    IdIsClean(c.mapping.streamId, '}');
    EscapeIsAlike(c.description, '{', '}');
    LowIsReached(c.description, '{', '}');
    PlainRises(c.networkInterface);
    RisesConcat(c.description, c.networkInterface);
    var d, sdp := c.description + c.networkInterface, SdpStrings(c.sdp);
    var names := StreamIdText.IdText(c.mapping.streamId) + c.mapping.streamName;
    PlainRises(sdp);
    PlainRises(names);
    BracedRises(sdp);
    BracedRises(names);
    RisesConcat(d, ['{'] + sdp + ['}']);
    RisesConcat(d + (['{'] + sdp + ['}']), ['{'] + names + ['}']);
  }

  // ---- where the session is --------------------------------------------------------------------

  lemma {:induction false} MembersAreGood(c: PersistedConfig)
    ensures var ms := ConfigMembers(c);
      |ms| == 9 && GoodMembers(ms) && GoodMembers(ms[..2]) && GoodMembers(ms[3..][..4]) && GoodMembers(ms[7..])
  {
    hide GoodMembers, ConfigMembers;
    ConfigIsGood(c);
    ConfigKeysDiffer(c);
    var ms := ConfigMembers(c);
    SubsetIsGood(ms, ms[..2]);
    SubsetIsGood(ms, ms[3..][..4]);
    SubsetIsGood(ms, ms[7..]);
  }

  lemma {:induction false} KeysAre(c: PersistedConfig)
    ensures var ms := ConfigMembers(c); |ms| == 9 && ms[2].key == "description" && ms[7].key == "sdp"
  {
    hide SdpMembers, MappingMembers, NumberValue, FlagValue;
  }

  lemma {:induction false} SliceLacks(c: PersistedConfig, from: nat, to: nat, k: nat)
    requires from <= to <= 7 && (to <= k <= 8 || k < from)
    ensures |ConfigMembers(c)| == 9 && MembersLack(ConfigMembers(c)[from..to], ConfigMembers(c)[k].key)
  {
    hide ConfigMembers, Lacks;
    ConfigKeysDiffer(c);
    var ms := ConfigMembers(c);
    forall i | from <= i < to
      ensures ms[i].key != ms[k].key && Lacks(ms[i].value, ms[k].key)
    {
      FlatLacks(ms[i].value, ms[k].key);
    }
  }

  lemma {:induction false} FlatMembersLack(c: PersistedConfig)
    ensures var ms := ConfigMembers(c);
      && |ms| == 9 && GoodMembers(ms) && GoodMembers(ms[..2]) && GoodMembers(ms[3..][..4]) && GoodMembers(ms[7..])
      && MembersLack(ms[..2], "sdp") && MembersLack(ms[3..][..4], "sdp") && Lacks(ms[2].value, "sdp")
      && MembersLack(ms[..2], "description") && MembersLack(ms[3..][..4], "description")
      && ms[2].key == "description" && ms[7].key == "sdp"
  {
    hide GoodMembers, MembersLack, Lacks, ConfigMembers;
    MembersAreGood(c);
    KeysAre(c);
    var ms := ConfigMembers(c);
    SliceLacks(c, 0, 2, 7);
    SliceLacks(c, 3, 7, 7);
    SliceLacks(c, 0, 2, 2);
    SliceLacks(c, 3, 7, 2);
    assert ms[0..2] == ms[..2] && ms[3..7] == ms[3..][..4];
    ConfigKeysDiffer(c);
    FlatLacks(ms[2].value, "sdp");
  }

  lemma {:induction false} SubsetIsGood(ms: seq<Member>, part: seq<Member>)
    requires GoodMembers(ms) && forall m :: m in part ==> m in ms
    ensures GoodMembers(part)
  {
    hide IsKey, Good;
  }

  lemma {:induction false} NestedKeys(c: PersistedConfig)
    ensures (forall i :: 0 <= i < |SdpMembers(c.sdp)| ==>
              SdpMembers(c.sdp)[i].key != "sdp" && SdpMembers(c.sdp)[i].key != "description")
    ensures (forall i :: 0 <= i < |MappingMembers(c.mapping)| ==>
              && MappingMembers(c.mapping)[i].key != "sdp" && MappingMembers(c.mapping)[i].key != "description"
              && !MappingMembers(c.mapping)[i].value.Object?)
  {
    hide Print, NumberList, StreamIdText.IdText;
  }

  lemma {:induction false} ObjectLacks(ms: seq<Member>, indent: nat, key: string)
    requires forall i :: 0 <= i < |ms| ==> ms[i].key != key && !ms[i].value.Object?
    ensures Lacks(Object(ms, indent), key)
  {
  }

  lemma {:induction false} ValuesLack(c: PersistedConfig, key: string)
    requires key == "sdp" || key == "description"
    ensures Lacks(ConfigMembers(c)[7].value, key) && Lacks(ConfigMembers(c)[8].value, key)
  {
    hide SdpMembers, MappingMembers, NumberValue, FlagValue, Lacks;
    NestedKeys(c);
    SdpIsFlat(c.sdp);
    ObjectLacks(SdpMembers(c.sdp), 6, key);
    ObjectLacks(MappingMembers(c.mapping), 6, key);
  }

  lemma {:induction false} NestedLack(c: PersistedConfig)
    ensures var ms := ConfigMembers(c);
      && |ms| == 9 && ms[8].key != "sdp" && Lacks(ms[7].value, "sdp") && Lacks(ms[8].value, "sdp")
      && MembersLack(ms[7..], "description")
  {
    hide ConfigMembers, Lacks;
    ConfigKeysDiffer(c);
    KeysAre(c);
    ValuesLack(c, "sdp");
    ValuesLack(c, "description");
    var ms := ConfigMembers(c);
    assert ms[2].key != ms[7].key && ms[2].key != ms[8].key && ms[7].key != ms[8].key;
  }

  /** No session begins before the session does. */
  lemma {:induction false} HitsFront(c: PersistedConfig, v: string)
    ensures Hits(Head(c) + (Escape(c.description) + (Mid(c) + v)), "sdp") == Hits(v, "sdp")
  {
    hide Hits, Before, Spaces, ConfigMembers, Escape, Cut, Good, Lacks, MembersLack, GoodMembers, IsKey, Ends,
         RenderMember;
    ConfigKeys();
    FlatMembersLack(c);
    var ms := ConfigMembers(c);
    var later := Before(ms[3..], 4, 4) + v;
    var comma := Spaces(6) + later;
    TextMember("description", c.description);
    DescriptionIs(c);
    var rest := RenderMember(ms[2]) + (",\n" + comma);
    assert Head(c) + (Escape(c.description) + (Mid(c) + v)) == ("{\n" + Spaces(6)) + (Before(ms, 4, 2) + rest);
    SpacesHaveNoQuote(6);
    HitsPlain("{\n" + Spaces(6), Before(ms, 4, 2) + rest, "sdp");
    HitsBefore(ms, 4, 2, rest, "sdp");
    CommaEnds(comma);
    MemberIsGood(ms, 2);
    HitsMember(ms[2], ",\n" + comma, "sdp");
    HitsPlain(",\n", comma, "sdp");
    HitsPlain(Spaces(6), later, "sdp");
    HitsBefore(ms[3..], 4, 4, v, "sdp");
  }

  lemma {:induction false} DescriptionIs(c: PersistedConfig)
    ensures ConfigMembers(c)[2] == Member("description", Value.Text(c.description))
  {
  }

  lemma {:induction false} MemberIsGood(ms: seq<Member>, i: nat)
    requires i < |ms| && GoodMembers(ms)
    ensures IsKey(ms[i].key) && Good(ms[i].value)
  {
    hide IsKey, Good;
    assert ms[i] in ms;
  }

  /** And one does there. */
  lemma {:induction false} HitsTail(c: PersistedConfig, v: string)
    ensures Hits(Tail(c) + v, "sdp") == 1 + Hits(v, "sdp")
  {
    hide Hits, RenderMember, RenderMembers, Spaces, ConfigMembers, Good, Lacks, MembersLack, GoodMembers, IsKey, Ends;
    ConfigKeys();
    FlatMembersLack(c);
    NestedLack(c);
    var ms, end := ConfigMembers(c), Closing(4) + v;
    var two := ms[7..];
    assert Tail(c) + v == RenderMembers(two, 4) + end;
    MoreMembers(two, 4, end);
    assert two[1..] == [ms[8]];
    OneMember(two[1..], 4, end);
    var second := RenderMember(ms[8]) + end;
    var comma := Spaces(6) + second;
    CommaEnds(comma);
    MemberIsGood(ms, 7);
    MemberIsGood(ms, 8);
    HitsMember(ms[7], ",\n" + comma, "sdp");
    HitsPlain(",\n", comma, "sdp");
    SpacesHaveNoQuote(6);
    SpacesHaveNoQuote(4);
    HitsPlain(Spaces(6), second, "sdp");
    ClosingEnds(4, v);
    HitsMember(ms[8], end, "sdp");
    HitsPlain(Closing(4), v, "sdp");
  }

  /** How the rest of a stream begins. */
  const SESSION := "\"sdp\": {"

  lemma {:induction false} TailBegins(c: PersistedConfig)
    ensures |SESSION| == 8 && |TailIn(c)| > 8 && TailIn(c)[..8] == SESSION && '}' !in SESSION
  {
    hide RenderMembers, RenderMember, Spaces, SdpMembers, MappingMembers, NumberValue, FlagValue;
    var two := ConfigMembers(c)[7..];
    MoreMembers(two, 4, "");
    assert RenderMembers(two, 4) + "" == RenderMembers(two, 4);
    SessionMember(c.sdp);
  }

  lemma {:induction false} SessionMember(s: SdpSession)
    ensures var t := RenderMember(Member("sdp", Object(SdpMembers(s), 6))); |t| > 8 && t[..8] == SESSION
  {
    hide RenderMembers, SdpMembers, Spaces;
    ObjectIsBraced(SdpMembers(s), 6);
    var inside := Inside(SdpMembers(s), 6);
    assert RenderMember(Member("sdp", Object(SdpMembers(s), 6))) == SESSION + (inside + ['}']);
  }

  // ---- where a description is read -------------------------------------------------------------

  lemma {:induction false} NoDescriptionInMid(f: string, c: PersistedConfig, v: string)
    ensures Search(Escape(f) + (Mid(c) + v), "description", QuotedText) == Search(v, "description", QuotedText)
  {
    hide Search, Before, Spaces, ConfigMembers, Escape, Good, Lacks, MembersLack, GoodMembers, IsKey, Ends;
    ConfigKeys();
    FlatMembersLack(c);
    var ms := ConfigMembers(c);
    var later := Before(ms[3..], 4, 4) + v;
    var comma := Spaces(6) + later;
    assert Escape(f) + (Mid(c) + v) == Escape(f) + ['"'] + (",\n" + comma);
    CommaEnds(comma);
    SkipEscaped(f, ",\n" + comma, "description", QuotedText);
    SkipPlain(",\n", comma, "description", QuotedText);
    SpacesHaveNoQuote(6);
    SkipPlain(Spaces(6), later, "description", QuotedText);
    SkipBefore(ms[3..], 4, 4, v, "description", QuotedText);
  }

  lemma {:induction false} NoDescriptionInTail(c: PersistedConfig, v: string)
    ensures Search(Tail(c) + v, "description", QuotedText) == Search(v, "description", QuotedText)
  {
    hide Search, RenderMembers, Spaces, ConfigMembers, Good, Lacks, MembersLack, GoodMembers, IsKey, Ends;
    ConfigKeys();
    FlatMembersLack(c);
    NestedLack(c);
    var two := ConfigMembers(c)[7..];
    assert Tail(c) + v == RenderMembers(two, 4) + (Closing(4) + v);
    ClosingEnds(4, v);
    SkipMembers(two, 4, Closing(4) + v, "description", QuotedText);
    SpacesHaveNoQuote(4);
    SkipPlain(Closing(4), v, "description", QuotedText);
  }

  /** A description cut off inside is not read. */
  lemma {:induction false} NoDescriptionCut(c: PersistedConfig, part: string)
    ensures Search(Head(c) + (Escape(part) + ['}']), "description", QuotedText) == None
  {
    hide Search, Before, Spaces, ConfigMembers, Escape, Good, Lacks, MembersLack, GoodMembers, IsKey;
    ConfigKeys();
    FlatMembersLack(c);
    var ms := ConfigMembers(c);
    NothingEscaped();
    var rest := Cut("description", part) + ['}'];
    assert Cut("description", "") + Escape(part) == Cut("description", part);
    assert Head(c) + (Escape(part) + ['}']) == ("{\n" + Spaces(6)) + (Before(ms, 4, 2) + rest);
    SpacesHaveNoQuote(6);
    SkipPlain("{\n" + Spaces(6), Before(ms, 4, 2) + rest, "description", QuotedText);
    SkipBefore(ms, 4, 2, rest, "description", QuotedText);
    CutIsNotFound("description", part);
  }
}
