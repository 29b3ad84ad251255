/**
  The lists the exact round trip does not speak of: an interface named "}{" cuts a stream in two, and the
  second half alone can load as the whole was saved.
 */
module StreamFileInterface {
  import opened StreamTypes
  import opened Decimal
  import opened JsonEscape
  import opened JsonFields
  import opened JsonDocument
  import opened StreamConfig
  import opened StreamConfigRoundTrip
  import opened StreamFile
  import opened StreamFileStrings
  import opened StreamLayout
  import StreamIdText

  const CROSSED := "}{"

  /** Nothing before the interface differs from what a reader assumes without it, and no other brace or bracket. */
  ghost predicate Lucky(c: PersistedConfig) {
    && c.networkInterface == CROSSED && c.description == "" && c.enabled && c.IsValid()
    && c.isTransmit == (c.sdp.direction == "sendonly" || c.sdp.direction == "sendrecv")
    && c.createdTimestamp == c.modifiedTimestamp == c.jitterBufferDepth == 0
    && (forall x :: x in "{}[]" ==> x !in SdpStrings(c.sdp) && x !in c.mapping.streamName)
  }

  // ---- the two halves --------------------------------------------------------------------------

  function Front(c: PersistedConfig): string { InsideCut(ConfigMembers(c), 4, 6, "") }

  function Back(c: PersistedConfig): string { ['"'] + (",\n" + (Spaces(6) + TailIn(c))) }

  lemma {:induction false} Halves(head: string, b: string, cut: string, m: string, r: string, z: string)
    ensures head + (b + ((cut + CROSSED + ['"']) + (",\n" + (m + r)))) + z ==
      (head + (b + cut)) + ['}'] + (['{'] + (['"'] + (",\n" + (m + (r + z)))))
  {
  }

  lemma {:induction false} CrossedIsPlain()
    ensures Escape(CROSSED) == CROSSED
  {
    assert CROSSED == ['}'] + ['{'];
    EscapeConcat(['}'], ['{']);
    BraceIsPlain();
    assert Escape(['{']) == ['{'];
  }

  lemma {:induction false} InterfaceIs(c: PersistedConfig)
    ensures ConfigMembers(c)[6] == Member("networkInterface", Value.Text(c.networkInterface))
  {
  }

  lemma {:induction false} TextIsTwoHalves(c: PersistedConfig)
    requires c.networkInterface == CROSSED
    ensures ConfigText(c) == ['{'] + Front(c) + ['}'] + (['{'] + Back(c) + ['}'])
  {
    hide Render, RenderMembers, RenderMember, Before, Spaces, Cut, Escape, ConfigMembers;
    var ms := ConfigMembers(c);
    ConfigKeysDiffer(c);
    InterfaceIs(c);
    ObjectIsBraced(ms, 4);
    MembersFrom(ms, 4, 6);
    MoreMembers(ms[6..], 4, "");
    assert ms[6..][1..] == ms[7..];
    assert RenderMembers(ms[6..], 4) + "" == RenderMembers(ms[6..], 4);
    assert RenderMembers(ms[7..], 4) + "" == RenderMembers(ms[7..], 4);
    TextMember("networkInterface", CROSSED);
    CrossedIsPlain();
    var cut := Cut("networkInterface", "");
    var head, z := "\n" + Spaces(6), "\n" + Spaces(4);
    Halves(head, Before(ms, 4, 6), cut, Spaces(6), RenderMembers(ms[7..], 4), z);
    assert Inside(ms, 4) == Front(c) + ['}'] + (['{'] + Back(c));
  }

  lemma {:induction false} FrontIsClean(c: PersistedConfig, x: char)
    requires c.description == "" && x in "{}"
    ensures x !in Front(c)
  {
    hide Before, Spaces, ConfigMembers;
    var ms := ConfigMembers(c);
    ConfigKeysDiffer(c);
    ConfigIsGood(c);
    WordsOf(ms);
    forall i | 0 <= i < 6
      ensures Avoids(Render(ms[i].value), x)
    {
      EarlyAvoids(c, i, x);
    }
    BeforeAvoids(ms, 4, 6, x);
    InterfaceIs(c);
    InterfaceCut();
  }

  lemma {:induction false} InterfaceCut()
    ensures '{' !in Cut("networkInterface", "") && '}' !in Cut("networkInterface", "")
  {
  }

  lemma {:induction false} EarlyAvoids(c: PersistedConfig, i: nat, x: char)
    requires i < 6 && x in "{}" && c.description == ""
    ensures Avoids(Render(ConfigMembers(c)[i].value), x)
  {
    hide FlagValue, SdpMembers, MappingMembers, NumberValue, Render, Avoids;
    FlagAvoids(c.enabled, x);
    FlagAvoids(c.isTransmit, x);
    TextAvoids(c.description, x);
    NumberAvoids(c.createdTimestamp, x);
    NumberAvoids(c.modifiedTimestamp, x);
    NumberAvoids(c.jitterBufferDepth, x);
  }

  lemma {:induction false} BackIsBalanced(c: PersistedConfig)
    requires Lucky(c)
    ensures Balanced(Back(c), '{', '}')
  {
    hide Balanced, Alike, RenderMembers, SdpMembers, MappingMembers, Spaces, StringsOf, NeutralMembers, SdpStrings,
         StreamIdText.IdText, Lucky;
    var ms := ConfigMembers(c);
    var two := ms[7..];
    ConfigIsNeutral(c, '{', '}');
    LaterAreNeutral(ms, 7);
    MembersAreAlike(two, 4, '{', '}');
    StringsOfTwo(two);
    StringsOfSdp(c.sdp);
    StringsOfMapping(c.mapping);
    NestedAreClean(c);
    var sdp, names := SdpStrings(c.sdp), StreamIdText.IdText(c.mapping.streamId) + c.mapping.streamName;
    PlainIsBalanced(sdp, '{', '}');
    PlainIsBalanced(names, '{', '}');
    EnclosedIsBalanced(sdp, '{', '}');
    EnclosedIsBalanced(names, '{', '}');
    BalancedConcat(['{'] + sdp + ['}'], ['{'] + names + ['}'], '{', '}');
    AlikeIsBalanced(RenderMembers(two, 4), StringsOf(two));
    PlainIsBalanced("\n" + Spaces(4), '{', '}');
    BalancedConcat(RenderMembers(two, 4), "\n" + Spaces(4), '{', '}');
    var lead := ['"'] + (",\n" + Spaces(6));
    PlainIsBalanced(lead, '{', '}');
    BalancedConcat(lead, TailIn(c), '{', '}');
    assert Back(c) == lead + TailIn(c);
  }

  lemma {:induction false} AlikeIsBalanced(a: string, b: string)
    requires Alike(a, b, '{', '}') && Balanced(b, '{', '}')
    ensures Balanced(a, '{', '}')
  {
  }

  lemma {:induction false} NestedAreClean(c: PersistedConfig)
    requires Lucky(c)
    ensures '{' !in SdpStrings(c.sdp) && '}' !in SdpStrings(c.sdp)
    ensures var names := StreamIdText.IdText(c.mapping.streamId) + c.mapping.streamName; '{' !in names && '}' !in names
  {
    hide SdpStrings, StreamIdText.IdText;
    IdIsClean(c.mapping.streamId, '{');
    IdIsClean(c.mapping.streamId, '}');
    assert '{' in "{}[]" && '}' in "{}[]";
  }

  // ---- what each half reads as -----------------------------------------------------------------

  lemma {:induction false} NothingInFront(c: PersistedConfig, lead: string, key: string)
    requires '"' !in lead && (key == "sdp" || key == "mapping")
    ensures Search(lead + (['{'] + Front(c) + ['}']), key, UpToBrace) == None
  {
    hide Search, Before, Spaces, ConfigMembers, Good, Lacks, MembersLack, GoodMembers, IsKey;
    ConfigKeys();
    var ms := ConfigMembers(c);
    EarlyLack(c, key);
    InterfaceIs(c);
    NothingEscaped();
    var value := ['"'] + ['}'];
    var rest := ['"'] + "networkInterface" + ['"'] + (": " + value);
    var head := lead + ("{\n" + Spaces(6));
    assert Cut("networkInterface", "") + ['}'] == rest;
    assert lead + (['{'] + Front(c) + ['}']) == head + (Before(ms, 4, 6) + rest);
    SpacesHaveNoQuote(6);
    SkipPlain(head, Before(ms, 4, 6) + rest, key, UpToBrace);
    SkipBefore(ms, 4, 6, rest, key, UpToBrace);
    SkipKey("networkInterface", value, key, UpToBrace);
    NotAWord(['}'], key);
    SkipQuote(['}'], key, UpToBrace);
    SkipPlain(['}'], "", key, UpToBrace);
    assert ['}'] + "" == ['}'];
    NothingHere(key);
  }

  lemma {:induction false} NothingHere(key: string)
    ensures Search("", key, UpToBrace) == None
  {
  }

  lemma {:induction false} EarlyLack(c: PersistedConfig, key: string)
    requires key == "sdp" || key == "mapping"
    ensures var ms := ConfigMembers(c);
      |ms| == 9 && GoodMembers(ms[..6]) && MembersLack(ms[..6], key) && "networkInterface" != key
  {
    hide ConfigMembers, Lacks, MembersLack, GoodMembers;
    ConfigIsGood(c);
    ConfigKeysDiffer(c);
    var ms := ConfigMembers(c);
    SubsetIsGood(ms, ms[..6]);
    KeysAre(c);
    MappingIs(c);
    SliceLacks(c, 0, 6, 7);
    SliceLacks(c, 0, 6, 8);
    assert ms[0..6] == ms[..6];
    InterfaceIs(c);
    assert ms[6].key != ms[7].key && ms[6].key != ms[8].key;
  }

  lemma {:induction false} MappingIs(c: PersistedConfig)
    ensures ConfigMembers(c)[8].key == "mapping"
  {
  }

  lemma {:induction false} FrontIsRefused(c: PersistedConfig, lead: string, resolve: Option<string> -> string)
    requires '"' !in lead
    ensures ConfigFromJson(lead + (['{'] + Front(c) + ['}']), resolve) == Rejected
  {
    hide Search, Front, ExtractString, ExtractBool, ExtractUInt64;
    NothingInFront(c, lead, "sdp");
    NothingInFront(c, lead, "mapping");
    ConfigKeys();
    assert !BlankSession.IsValid();
  }

  lemma {:induction false} BackSearch(c: PersistedConfig, key: string, p: Pattern)
    requires IsKey(key)
    ensures Search(['{'] + Back(c) + ['}'], key, p) ==
      Search(RenderMembers(ConfigMembers(c)[7..], 4) + Closing(4), key, p)
  {
    hide Search, RenderMembers, Spaces, ConfigMembers, StartsKey;
    ConfigKeysDiffer(c);
    var members := RenderMembers(ConfigMembers(c)[7..], 4) + Closing(4);
    var comma := ",\n" + (Spaces(6) + members);
    assert ("\n" + Spaces(4)) + ['}'] == Closing(4);
    assert ['{'] + Back(c) + ['}'] == ['{'] + (['"'] + comma);
    SkipPlain(['{'], ['"'] + comma, key, p);
    NotAWord(comma, key);
    SkipQuote(comma, key, p);
    SpacesHaveNoQuote(6);
    SkipPlain(",\n", Spaces(6) + members, key, p);
    SkipPlain(Spaces(6), members, key, p);
  }

  lemma {:induction false} AbsentInBack(c: PersistedConfig, k: nat, p: Pattern)
    requires k < 7
    ensures |ConfigMembers(c)| == 9 && MatchField(['{'] + Back(c) + ['}'], ConfigMembers(c)[k].key, p) == None
  {
    hide Search, RenderMembers, Spaces, ConfigMembers, Good, Lacks, MembersLack, GoodMembers, IsKey, Back;
    var ms := ConfigMembers(c);
    ConfigKeysDiffer(c);
    MembersAreGood(c);
    MemberIsGood(ms, k);
    NestedLackEarly(c, k);
    var key := ms[k].key;
    KeyIsWord(key);
    BackSearch(c, key, p);
    ClosingEnds(4, "");
    assert Closing(4) + "" == Closing(4);
    SkipMembers(ms[7..], 4, Closing(4), key, p);
    SpacesHaveNoQuote(4);
    SkipPlain(Closing(4), "", key, p);
    NothingAtAll(key, p);
  }

  lemma {:induction false} KeyIsWord(key: string)
    requires IsKey(key)
    ensures IsWord(key)
  {
  }

  lemma {:induction false} NothingAtAll(key: string, p: Pattern)
    ensures Search("", key, p) == None
  {
  }

  lemma {:induction false} SdpKeysAreOthers(c: PersistedConfig, k: nat)
    requires k < 7
    ensures forall i :: 0 <= i < |SdpMembers(c.sdp)| ==> SdpMembers(c.sdp)[i].key != ConfigMembers(c)[k].key
  {
    hide NumberValue, IntegerValue, FlagValue, MappingMembers;
  }

  lemma {:induction false} MappingKeysAreOthers(c: PersistedConfig, k: nat)
    requires k < 7
    ensures forall i :: 0 <= i < |MappingMembers(c.mapping)| ==>
      MappingMembers(c.mapping)[i].key != ConfigMembers(c)[k].key && !MappingMembers(c.mapping)[i].value.Object?
  {
    hide Print, FlagValue, SdpMembers, NumberList, StreamIdText.IdText;
  }

  lemma {:induction false} NestedLackEarly(c: PersistedConfig, k: nat)
    requires k < 7
    ensures |ConfigMembers(c)| == 9 && MembersLack(ConfigMembers(c)[7..], ConfigMembers(c)[k].key)
  {
    hide SdpMembers, MappingMembers, NumberValue, FlagValue, Lacks;
    var ms := ConfigMembers(c);
    ConfigKeysDiffer(c);
    SdpKeysAreOthers(c, k);
    MappingKeysAreOthers(c, k);
    SdpIsFlat(c.sdp);
    ObjectLacks(SdpMembers(c.sdp), 6, ms[k].key);
    ObjectLacks(MappingMembers(c.mapping), 6, ms[k].key);
    assert ms[k].key != ms[7].key && ms[k].key != ms[8].key;
  }

  lemma {:induction false} FoundInBack(c: PersistedConfig, i: nat, inner: seq<Member>)
    requires i < 2 && |ConfigMembers(c)| == 9 && ConfigMembers(c)[7 + i].value == Object(inner, 6)
    requires '}' !in Inside(inner, 6)
    ensures ObjectField(['{'] + Back(c) + ['}'], ConfigMembers(c)[7 + i].key) == Some(Render(Object(inner, 6)))
  {
    hide Search, Render, RenderMembers, Spaces, ConfigMembers, Good, Lacks, MembersLack, GoodMembers, IsKey, Back,
         Inside;
    var ms := ConfigMembers(c);
    var two := ms[7..];
    ConfigIsUnambiguous(c);
    MembersAreGood(c);
    MemberIsGood(ms, 7 + i);
    var key := ms[7 + i].key;
    KeyIsWord(key);
    BackSearch(c, key, UpToBrace);
    ClosingEnds(4, "");
    assert Closing(4) + "" == Closing(4);
    InsideIsLong(inner, 6);
    EarlierLack(c, i);
    FindAmongMembers(two, 4, i, Closing(4), UpToBrace, Inside(inner, 6));
    ObjectIsBraced(inner, 6);
  }

  lemma {:induction false} EarlierLack(c: PersistedConfig, i: nat)
    requires i < 2
    ensures |ConfigMembers(c)| == 9 && MembersLack(ConfigMembers(c)[7..][..i], ConfigMembers(c)[7..][i].key)
  {
    hide ConfigMembers, Lacks, GoodMembers;
    ConfigIsUnambiguous(c);
    ConfigKeysDiffer(c);
    var ms := ConfigMembers(c);
    assert forall j :: 0 <= j < i ==> ms[7..][..i][j] == ms[7 + j];
  }

  lemma {:induction false} ObjectsInBack(c: PersistedConfig)
    requires Unbraced(c)
    ensures var u := ['{'] + Back(c) + ['}'];
      && ObjectField(u, "sdp") == Some(SdpText(c.sdp)) && ObjectField(u, "mapping") == Some(MappingText(c.mapping))
  {
    hide ObjectField, Render, SdpMembers, MappingMembers, NumberValue, FlagValue, Inside, SdpAvoids, MembersClean, Back;
    SdpClean(c.sdp, '}');
    MappingClean(c.mapping, '}');
    FoundInBack(c, 0, SdpMembers(c.sdp));
    FoundInBack(c, 1, MappingMembers(c.mapping));
  }

  lemma {:induction false} FieldsInBack(c: PersistedConfig)
    ensures var u := ['{'] + Back(c) + ['}'];
      && ExtractBool(u, "enabled") == None && ExtractBool(u, "isTransmit") == None
      && ExtractString(u, "description") == None && ExtractUInt64(u, "createdTimestamp") == None
      && ExtractUInt64(u, "modifiedTimestamp") == None && ExtractUInt64(u, "jitterBufferDepth") == None
      && ExtractString(u, "networkInterface") == None
  {
    hide MatchField, SdpMembers, MappingMembers, NumberValue, FlagValue, Back;
    AbsentInBack(c, 0, Boolean);
    AbsentInBack(c, 1, Boolean);
    AbsentInBack(c, 2, QuotedText);
    AbsentInBack(c, 3, Digits);
    AbsentInBack(c, 4, Digits);
    AbsentInBack(c, 5, Digits);
    AbsentInBack(c, 6, QuotedText);
  }

  lemma {:induction false} LuckyIsUnbraced(c: PersistedConfig)
    requires Lucky(c)
    ensures Unbraced(c)
  {
    hide SdpAvoids, SdpStrings;
    SdpStringsAvoid(c.sdp, '}');
    assert '}' in "{}[]";
  }

  lemma {:induction false} BackReadsAsWhole(c: PersistedConfig, resolve: Option<string> -> string)
    requires Lucky(c) && resolve(None) == resolve(Some(CROSSED))
    ensures ConfigFromJson(['{'] + Back(c) + ['}'], resolve) == Read(Restored(c, resolve))
  {
    hide ObjectField, ExtractBool, ExtractString, ExtractUInt64, SdpText, MappingText, SdpFromJson, MappingFromJson,
         Back,
         SdpStrings;
    LuckyIsUnbraced(c);
    ObjectsInBack(c);
    FieldsInBack(c);
    SdpReadsBack(c.sdp);
    MappingReadsBack(c.mapping);
  }

  // ---- the file --------------------------------------------------------------------------------

  lemma {:induction false} SplitsInTwo(c: PersistedConfig)
    requires Lucky(c)
    ensures SplitObjects(Content([c]), 0, "") ==
      ["\n    " + (['{'] + Front(c) + ['}']), ['{'] + Back(c) + ['}']]
  {
    hide SplitObjects, Front, Back, ConfigText, Balanced, Lucky;
    var lead, a, b := "\n    ", Front(c), Back(c);
    assert c.networkInterface == CROSSED && c.description == "" by { LuckyNames(c); }
    TextIsTwoHalves(c);
    FrontIsClean(c, '{');
    FrontIsClean(c, '}');
    PlainIsBalanced(a, '{', '}');
    BackIsBalanced(c);
    var rest := ['{'] + b + ['}'] + "\n  ";
    OneStream(c);
    assert Content([c]) == lead + (['{'] + a + ['}'] + rest);
    SplitPassesPlain(lead, ['{'] + a + ['}'] + rest, 0, "");
    assert "" + lead == lead && "" + (['{'] + b + ['}']) == ['{'] + b + ['}'];
    OneObjectSplits(a, rest, lead);
    OneObjectSplits(b, "\n  ", "");
    NothingSplits("\n  ");
  }

  lemma {:induction false} LuckyNames(c: PersistedConfig)
    requires Lucky(c)
    ensures c.networkInterface == CROSSED && c.description == ""
  {
  }

  lemma {:induction false} OneStream(c: PersistedConfig)
    ensures Content([c]) == "\n    " + ConfigText(c) + "\n  "
  {
    hide ConfigText;
    assert StreamTexts([c]) == "    " + ConfigText(c) + "";
    assert "\n" + "    " == "\n    ";
  }

  lemma {:induction false} BracketsBalance(c: PersistedConfig)
    requires Lucky(c)
    ensures Balanced(Content([c]), '[', ']')
  {
    hide Balanced, SdpStrings, Content, Alike;
    var s := StreamStrings(c);
    assert '[' in "{}[]" && ']' in "{}[]";
    assert '[' !in CROSSED && ']' !in CROSSED;
    assert '[' !in s && ']' !in s;
    PlainIsBalanced(s, '[', ']');
    ContentIsAlike([c]);
    assert AllStrings([c]) == s by { OnlyStrings(c); }
    AlikeInBrackets(Content([c]), s);
  }

  lemma {:induction false} OnlyStrings(c: PersistedConfig)
    ensures AllStrings([c]) == StreamStrings(c)
  {
    hide StreamStrings;
    assert AllStrings([c]) == StreamStrings(c) + AllStrings([]);
  }

  lemma {:induction false} AlikeInBrackets(a: string, b: string)
    requires Alike(a, b, '[', ']') && Balanced(b, '[', ']')
    ensures Balanced(a, '[', ']')
  {
  }

  lemma {:induction false} TwoPieces(a: string, b: string, resolve: Option<string> -> string)
    requires ConfigFromJson(a, resolve) == Rejected && ConfigFromJson(b, resolve).Read?
    ensures ConfigsFrom([a, b], resolve) == Read([ConfigFromJson(b, resolve).value])
  {
    hide ConfigFromJson;
    var none: seq<string> := [];
    assert [a, b][1..] == [b] && [b][1..] == none;
    assert ConfigsFrom(none, resolve) == Read([]);
    var one := [ConfigFromJson(b, resolve).value];
    assert one + [] == one;
    assert ConfigsFrom([b], resolve) == Read(one);
  }

  lemma {:induction false} CrossedIsUnpaired(c: PersistedConfig)
    requires c.networkInterface == CROSSED && c.description == ""
    ensures !Paired(c)
  {
    hide SdpAvoids;
    assert c.description + c.networkInterface == CROSSED;
    assert CROSSED == ['}'] + ['{'];
    One('}', '{', '}');
    NetOfConcat(['}'], ['{'], '{', '}');
    LowIsReached(['{'], '{', '}');
  }

  lemma {:induction false} OneRestored(c: PersistedConfig, resolve: Option<string> -> string)
    ensures AllRestored([c], resolve) == [Restored(c, resolve)]
  {
    hide Restored;
    var none: seq<PersistedConfig> := [];
    assert [c][1..] == none && AllRestored(none, resolve) == [];
  }

  /** A list that is not loadable, cut inside a stream, and yet loads as it was saved. */
  lemma {:induction false} CutListCanLoad(c: PersistedConfig, resolve: Option<string> -> string)
    requires Lucky(c) && resolve(None) == resolve(Some(CROSSED))
    ensures !Loadable([c]) && FromJson(ToJson([c]), resolve) == Read(AllRestored([c], resolve))
  {
    hide Lucky, ToJson, StreamsContent, SplitObjects, ConfigsFrom, ConfigFromJson, Content, Front, Back, Balanced,
         Paired,
         PersistedConfig.IsValid, AllStrings;
    LuckyNames(c);
    BracketsBalance(c);
    ContentIsFound([c]);
    SplitsInTwo(c);
    FrontIsRefused(c, "\n    ", resolve);
    BackReadsAsWhole(c, resolve);
    TwoPieces("\n    " + (['{'] + Front(c) + ['}']), ['{'] + Back(c) + ['}'], resolve);
    OneRestored(c, resolve);
    CrossedIsUnpaired(c);
    LoadableIff([c]);
  }

  /** One such stream. */
  const Example: PersistedConfig := PersistedConfig(
    BlankSession.(sessionName := "a", connectionAddress := "b"), ChannelMapping(1, "a", 2, 0, 0, 2, []),
    true, false, "", 0, 0, 0, CROSSED)

  lemma {:induction false} ExampleAvoids(x: char)
    requires x in "{}[]"
    ensures SdpAvoids(Example.sdp, x) && x !in Example.mapping.streamName
  {
  }

  lemma {:induction false} ExampleIsValid()
    ensures Example.IsValid() && Example.sdp.direction == "recvonly"
  {
  }

  lemma {:induction false} ExampleIsLucky()
    ensures Lucky(Example)
  {
    hide SdpStrings, SdpAvoids, PersistedConfig.IsValid;
    ExampleIsValid();
    forall x | x in "{}[]"
      ensures x !in SdpStrings(Example.sdp) && x !in Example.mapping.streamName
    {
      ExampleAvoids(x);
      SdpStringsAvoid(Example.sdp, x);
    }
  }
}
