/**
  The file all streams are saved in (packages/aes67-core/NetworkEngine/StreamConfig.cpp): the streams
  array is found by counting brackets, its objects are told apart by counting braces.
 */
module StreamFile {
  import opened StreamTypes
  import opened Text
  import opened JsonFields
  import opened JsonDocument
  import opened StreamConfig
  import opened StreamConfigRoundTrip

  // ---- writing ---------------------------------------------------------------------------------

  function StreamTexts(cs: seq<PersistedConfig>): string {
    if cs == [] then ""
    else "    " + ConfigText(cs[0]) + (if |cs| == 1 then "" else ",\n" + StreamTexts(cs[1..]))
  }

  const OPENING := "{\n  \"version\": \"1.0\",\n  "
  const STREAMS_KEY := "\"streams\""

  /** What stands between the brackets. */
  function Content(cs: seq<PersistedConfig>): string { "\n" + StreamTexts(cs) + "\n  " }

  function ToJson(cs: seq<PersistedConfig>): string {
    OPENING + (STREAMS_KEY + ": ") + (['['] + Content(cs) + [']'] + "\n}")
  }

  // ---- reading ---------------------------------------------------------------------------------

  function Deeper(c: char, open: char, close: char, depth: int): int {
    if c == open then depth + 1 else if c == close then depth - 1 else depth
  }

  /** Where a counter standing at `depth` first comes back to zero on a closing character. */
  function CloseAt(s: string, open: char, close: char, depth: int): (r: Option<nat>)
    requires open != close
    ensures r.Some? ==> r.value < |s|
  {
    if s == "" then None
    else if s[0] == close && depth == 1 then Some(0)
    else match CloseAt(s[1..], open, close, Deeper(s[0], open, close, depth))
      case None => None
      case Some(i) => Some(i + 1)
  }

  /** The pieces that end where the brace counter returns to zero; what is left over is dropped. */
  function SplitObjects(s: string, depth: int, current: string): seq<string>
    decreases |s|
  {
    if s == "" then []
    else if s[0] == '}' && depth == 1 then [current + [s[0]]] + SplitObjects(s[1..], 0, "")
    else SplitObjects(s[1..], Deeper(s[0], '{', '}', depth), current + [s[0]])
  }

  /** The text between the brackets of the streams array. */
  function StreamsContent(json: string): Option<string> {
    match FindText(json, STREAMS_KEY)
    case None => None
    case Some(at) =>
      match Find(json, '[', at)
      case None => None
      case Some(start) =>
        match CloseAt(json[start + 1..], '[', ']', 1)
        case None => None
        case Some(length) => Some(json[start + 1..][..length])
  }

  ghost function ConfigsFrom(objects: seq<string>, resolve: Option<string> -> string): Outcome<seq<PersistedConfig>> {
    if objects == [] then Read([])
    else match (ConfigFromJson(objects[0], resolve), ConfigsFrom(objects[1..], resolve))
      case (Threw, _) => Threw
      case (_, Threw) => Threw
      case (_, Rejected) => Rejected
      case (Rejected, Read(rest)) => Read(rest)
      case (Read(c), Read(rest)) => Read([c] + rest)
  }

  ghost function FromJson(json: string, resolve: Option<string> -> string): Outcome<seq<PersistedConfig>> {
    match StreamsContent(json)
    case None => Rejected
    case Some(content) => ConfigsFrom(SplitObjects(content, 0, ""), resolve)
  }

  /** The bracket-counting loop. */
  method FindMatching(json: string, start: nat) returns (end: Option<nat>)
    requires start < |json| && json[start] == '['
    ensures end == match CloseAt(json[start + 1..], '[', ']', 1) case None => None case Some(i) => Some(start + 1 + i)
  {
    assert json[start..][1..] == json[start + 1..];
    var depth := 0;
    var i := start;
    while i < |json|
      invariant start <= i <= |json|
      invariant CloseAt(json[start..], '[', ']', 0) ==
        match CloseAt(json[i..], '[', ']', depth) case None => None case Some(k) => Some(i - start + k)
    {
      assert json[i..][0] == json[i] && json[i..][1..] == json[i + 1..];
      if json[i] == '[' {
        depth := depth + 1;
      } else if json[i] == ']' {
        depth := depth - 1;
        if depth == 0 { return Some(i); }
      }
      i := i + 1;
    }
    return None;
  }

  /** The brace-counting loop. */
  method SplitStreams(content: string) returns (objects: seq<string>)
    ensures objects == SplitObjects(content, 0, "")
  {
    objects := [];
    var depth, current := 0, "";
    assert content[0..] == content;
    for i := 0 to |content|
      invariant objects + SplitObjects(content[i..], depth, current) == SplitObjects(content, 0, "")
    {
      assert content[i..][0] == content[i] && content[i..][1..] == content[i + 1..];
      var c := content[i];
      current := current + [c];
      if c == '{' {
        depth := depth + 1;
      } else if c == '}' {
        depth := depth - 1;
        if depth == 0 {
          objects := objects + [current];
          current := "";
        }
      }
    }
  }

  // ---- text the counters pass over -------------------------------------------------------------

  /** How far a counter has moved after a text. */
  function Net(s: string, open: char, close: char): int
    requires open != close
  {
    if s == "" then 0 else Deeper(s[0], open, close, 0) + Net(s[1..], open, close)
  }

  /** How deep below its start a counter gets in a text. */
  function Low(s: string, open: char, close: char): (r: int)
    requires open != close
    ensures r <= 0
  {
    if s == "" then 0
    else
      var r := Deeper(s[0], open, close, 0) + Low(s[1..], open, close);
      if r < 0 then r else 0
  }

  ghost predicate Balanced(s: string, open: char, close: char)
    requires open != close
  {
    Net(s, open, close) == 0 && Low(s, open, close) == 0
  }

  lemma {:induction false} NetOfConcat(a: string, b: string, open: char, close: char)
    requires open != close
    ensures Net(a + b, open, close) == Net(a, open, close) + Net(b, open, close)
    ensures Low(a, open, close) == 0 && Net(a, open, close) + Low(b, open, close) >= 0 ==> Low(a + b, open, close) == 0
    ensures Low(a + b, open, close) ==
      if Net(a, open, close) + Low(b, open, close) < Low(a, open, close) then Net(a, open, close) + Low(b, open, close)
      else Low(a, open, close)
  {
    if a == "" {
      assert a + b == b;
    } else {
      assert (a + b)[1..] == a[1..] + b;
      NetOfConcat(a[1..], b, open, close);
    }
  }

  lemma {:induction false} BalancedConcat(a: string, b: string, open: char, close: char)
    requires open != close && Balanced(a, open, close) && Balanced(b, open, close)
    ensures Balanced(a + b, open, close)
  {
    NetOfConcat(a, b, open, close);
  }

  lemma {:induction false} PlainIsBalanced(s: string, open: char, close: char)
    requires open != close && open !in s && close !in s
    ensures Balanced(s, open, close)
  {
    if s != "" { PlainIsBalanced(s[1..], open, close); }
  }

  lemma {:induction false} EnclosedIsBalanced(s: string, open: char, close: char)
    requires open != close && Balanced(s, open, close)
    ensures Balanced([open] + s + [close], open, close)
  {
    hide Net, Low;
    One(open, open, close);
    One(close, open, close);
    NetOfConcat([open], s, open, close);
    NetOfConcat([open] + s, [close], open, close);
  }

  lemma {:induction false} One(c: char, open: char, close: char)
    requires open != close
    ensures Net([c], open, close) == Deeper(c, open, close, 0)
    ensures Low([c], open, close) == if c == close then -1 else 0
  {
  }

  /** A counter that does not come back to zero inside a text goes on after it. */
  lemma {:induction false} ClosePasses(t: string, rest: string, open: char, close: char, depth: int)
    requires open != close && depth + Low(t, open, close) >= 1
    ensures CloseAt(t + rest, open, close, depth) ==
      match CloseAt(rest, open, close, depth + Net(t, open, close)) case None => None case Some(i) => Some(|t| + i)
  {
    if t == "" {
      assert t + rest == rest;
    } else {
      assert (t + rest)[1..] == t[1..] + rest;
      ClosePasses(t[1..], rest, open, close, Deeper(t[0], open, close, depth));
    }
  }

  /** One that does come back stops inside it. */
  lemma {:induction false} CloseStops(t: string, rest: string, open: char, close: char, depth: int)
    requires open != close && depth >= 1 && depth + Low(t, open, close) <= 0
    ensures var r := CloseAt(t + rest, open, close, depth); r.Some? && r.value < |t|
  {
    if t == "" {
    } else {
      assert (t + rest)[1..] == t[1..] + rest;
      if t[0] != close || depth != 1 { CloseStops(t[1..], rest, open, close, Deeper(t[0], open, close, depth)); }
    }
  }

  lemma {:induction false} SplitStops(t: string, rest: string, depth: int, current: string)
    requires depth >= 1 && depth + Low(t, '{', '}') <= 0
    ensures var r := SplitObjects(t + rest, depth, current); r != [] && |r[0]| <= |current| + |t|
  {
    if t == "" {
    } else {
      assert (t + rest)[1..] == t[1..] + rest;
      if t[0] != '}' || depth != 1 { SplitStops(t[1..], rest, Deeper(t[0], '{', '}', depth), current + [t[0]]); }
    }
  }

  lemma {:induction false} FirstPieceIsLonger(s: string, depth: int, current: string)
    ensures var r := SplitObjects(s, depth, current); r != [] ==> |r[0]| > |current|
    decreases |s|
  {
    if s == "" {
    } else if s[0] == '}' && depth == 1 {
    } else {
      FirstPieceIsLonger(s[1..], Deeper(s[0], '{', '}', depth), current + [s[0]]);
    }
  }

  lemma {:induction false} SplitPasses(t: string, rest: string, depth: int, current: string)
    requires depth + Low(t, '{', '}') >= 1
    ensures SplitObjects(t + rest, depth, current) == SplitObjects(rest, depth + Net(t, '{', '}'), current + t)
  {
    if t == "" {
      assert t + rest == rest && current + t == current;
    } else {
      assert (t + rest)[1..] == t[1..] + rest;
      SplitPasses(t[1..], rest, Deeper(t[0], '{', '}', depth), current + [t[0]]);
      assert current + [t[0]] + t[1..] == current + t;
    }
  }

  lemma {:induction false} SplitPassesPlain(t: string, rest: string, depth: int, current: string)
    requires '{' !in t && '}' !in t
    ensures SplitObjects(t + rest, depth, current) == SplitObjects(rest, depth, current + t)
  {
    if t == "" {
      assert t + rest == rest && current + t == current;
    } else {
      assert (t + rest)[1..] == t[1..] + rest;
      SplitPassesPlain(t[1..], rest, depth, current + [t[0]]);
      assert current + [t[0]] + t[1..] == current + t;
    }
  }

  // ---- what the writer writes bare is balanced -------------------------------------------------------

  /** The two counters the reader runs. */
  predicate Pair(open: char, close: char) { (open == '{' && close == '}') || (open == '[' && close == ']') }

  lemma {:induction false} RoutesAreBalanced(m: ChannelMapping, open: char, close: char)
    requires Pair(open, close)
    ensures Balanced(Render(MappingMembers(m)[6].value), open, close)
  {
    hide Balanced, NumberList, Flat;
    var list := NumberList(Flat(m.routes));
    NumberListIsPlain(Flat(m.routes));
    if open == '[' {
      PlainIsBalanced(list, open, close);
      EnclosedIsBalanced(list, open, close);
    } else {
      PlainIsBalanced(['['] + list + [']'], open, close);
    }
  }

  lemma {:induction false} NumberIsBalanced(n: nat, open: char, close: char)
    requires Pair(open, close)
    ensures Balanced(Render(NumberValue(n)), open, close)
  {
    hide Balanced, Render, NumberValue;
    NumberAvoids(n, open);
    NumberAvoids(n, close);
    PlainIsBalanced(Render(NumberValue(n)), open, close);
  }

  lemma {:induction false} FlagIsBalanced(b: bool, open: char, close: char)
    requires Pair(open, close)
    ensures Balanced(Render(FlagValue(b)), open, close)
  {
    hide Balanced;
    PlainIsBalanced(Render(FlagValue(b)), open, close);
  }

  /** The strings of a stream leave the brace count where it was, and never take it below that on the way. */
  ghost predicate Countable(c: PersistedConfig) { Balanced(Inside(ConfigMembers(c), 4), '{', '}') }

  ghost predicate AllCountable(cs: seq<PersistedConfig>) { forall i :: 0 <= i < |cs| ==> Countable(cs[i]) }

  // ---- the whole file --------------------------------------------------------------------------

  /** The name of the array is not in the file before the array. */
  lemma {:induction false} KeyIsFound(rest: string)
    ensures FindText(OPENING + (STREAMS_KEY + rest), STREAMS_KEY) == Some(|OPENING|)
  {
    hide FindText;
    var s := OPENING + (STREAMS_KEY + rest);
    assert s[|OPENING|..|OPENING| + |STREAMS_KEY|] == STREAMS_KEY;
    assert OccursAt(s, STREAMS_KEY, |OPENING|);
    forall k | 0 <= k < |OPENING|
      ensures !OccursAt(s, STREAMS_KEY, k)
    {
      NotInOpening(STREAMS_KEY + rest, k);
    }
  }

  lemma {:induction false} NotInOpening(rest: string, k: nat)
    requires k < |OPENING| && rest != "" && rest[0] != 's'
    ensures !OccursAt(OPENING + rest, STREAMS_KEY, k)
  {
    var s := OPENING + rest;
    assert STREAMS_KEY[0] == '"' && STREAMS_KEY[1] == 's';
    assert s[k] == OPENING[k];
    assert k + 1 < |OPENING| ==> s[k + 1] == OPENING[k + 1];
    if k + |STREAMS_KEY| <= |s| {
      var found := s[k..k + |STREAMS_KEY|];
      assert found[0] == s[k] && found[1] == s[k + 1];
    }
  }

  lemma {:induction false} BracketIsFound(rest: string)
    ensures var json := OPENING + (STREAMS_KEY + (": " + (['['] + rest)));
      Find(json, '[', |OPENING|) == Some(|OPENING| + |STREAMS_KEY| + 2) && json[|OPENING| + |STREAMS_KEY| + 3..] == rest
  {
    hide Find;
    var json := OPENING + (STREAMS_KEY + (": " + (['['] + rest)));
    var at, start := |OPENING|, |OPENING| + |STREAMS_KEY| + 2;
    var between := STREAMS_KEY + ": ";
    assert json[start] == '[' && '[' !in between;
    assert forall k :: at <= k < start ==> json[k] == between[k - at];
  }

  /**
    Counting brackets stops exactly at the end of the array iff the strings in it are balanced, and
    finds no end iff some stay open.
   */
  lemma {:induction false} ContentIsFound(cs: seq<PersistedConfig>)
    ensures StreamsContent(ToJson(cs)) == Some(Content(cs)) <==> Balanced(Content(cs), '[', ']')
    ensures StreamsContent(ToJson(cs)) == None <==> Low(Content(cs), '[', ']') == 0 < Net(Content(cs), '[', ']')
  {
    hide Content, FindText, Find, Net, Low, CloseAt;
    var content, after := Content(cs), [']'] + "\n}";
    var json := OPENING + (STREAMS_KEY + (": " + (['['] + (content + after))));
    assert ToJson(cs) == json;
    KeyIsFound(": " + (['['] + (content + after)));
    BracketIsFound(content + after);
    assert (content + after)[..|content|] == content;
    LowIsReached(content, '[', ']');
    if Low(content, '[', ']') == 0 {
      ClosePasses(content, after, '[', ']', 1);
      AfterArray(1 + Net(content, '[', ']'));
    } else {
      CloseStops(content, after, '[', ']', 1);
    }
  }

  lemma {:induction false} LowIsReached(s: string, open: char, close: char)
    requires open != close
    ensures Low(s, open, close) <= Net(s, open, close)
  {
    if s == "" {
    } else {
      LowIsReached(s[1..], open, close);
    }
  }

  lemma {:induction false} AfterArray(depth: int)
    requires depth >= 1
    ensures CloseAt([']'] + "\n}", '[', ']', depth) == if depth == 1 then Some(0) else None
  {
    var after := [']'] + "\n}";
    assert after[1..] == "\n}" && "\n}"[1..] == "}" && "}"[1..] == "";
    assert forall d :: CloseAt("}", '[', ']', d) == None;
    assert forall d :: CloseAt("\n}", '[', ']', d) == None;
  }

  /** The pieces the brace counter makes: each stream with the text before it. */
  function Objects(cs: seq<PersistedConfig>, lead: string): seq<string> {
    if cs == [] then [] else [lead + "    " + ConfigText(cs[0])] + Objects(cs[1..], ",\n")
  }

  lemma {:induction false} OneObjectSplits(inside: string, rest: string, lead: string)
    requires Balanced(inside, '{', '}')
    ensures SplitObjects(['{'] + inside + ['}'] + rest, 0, lead) ==
      [lead + (['{'] + inside + ['}'])] + SplitObjects(rest, 0, "")
  {
    hide Net, Low;
    var after := inside + (['}'] + rest);
    var s := ['{'] + inside + ['}'] + rest;
    assert s == ['{'] + after && s[1..] == after;
    SplitPasses(inside, ['}'] + rest, 1, lead + ['{']);
    var end := ['}'] + rest;
    assert end[0] == '}' && end[1..] == rest;
    assert lead + ['{'] + inside + ['}'] == lead + (['{'] + inside + ['}']);
  }

  lemma {:induction false} OneObjectSplitsWrong(inside: string, rest: string, lead: string)
    requires !Balanced(inside, '{', '}')
    ensures var pieces := SplitObjects(['{'] + inside + ['}'] + rest, 0, lead);
      pieces == [] || pieces[0] != lead + (['{'] + inside + ['}'])
  {
    hide Net, Low;
    var end := ['}'] + rest;
    var s := ['{'] + inside + ['}'] + rest;
    assert s[1..] == inside + end;
    LowIsReached(inside, '{', '}');
    if Low(inside, '{', '}') < 0 {
      SplitStops(inside, end, 1, lead + ['{']);
    } else {
      SplitPasses(inside, end, 1, lead + ['{']);
      assert end[0] == '}' && end[1..] == rest;
      FirstPieceIsLonger(rest, Net(inside, '{', '}'), lead + ['{'] + inside + ['}']);
    }
  }

  lemma {:induction false} ConfigSplits(c: PersistedConfig, lead: string, rest: string)
    requires '{' !in lead && '}' !in lead
    ensures var pieces := SplitObjects(lead + (ConfigText(c) + rest), 0, "");
      if Countable(c) then pieces == [lead + ConfigText(c)] + SplitObjects(rest, 0, "")
      else pieces == [] || pieces[0] != lead + ConfigText(c)
  {
    hide SplitObjects, Balanced, Inside, Render;
    SplitPassesPlain(lead, ConfigText(c) + rest, 0, "");
    assert "" + lead == lead;
    ObjectIsBraced(ConfigMembers(c), 4);
    var inside := Inside(ConfigMembers(c), 4);
    if Countable(c) { OneObjectSplits(inside, rest, lead); } else { OneObjectSplitsWrong(inside, rest, lead); }
  }

  lemma {:induction false} NothingSplits(lead: string)
    requires '{' !in lead && '}' !in lead
    ensures SplitObjects(lead, 0, "") == []
  {
    SplitPassesPlain(lead, "", 0, "");
    assert lead + "" == lead;
  }

  /** Counting braces cuts the array into its streams iff the strings of each stream leave the count alone. */
  lemma {:induction false} StreamsSplit(cs: seq<PersistedConfig>, lead: string)
    requires '{' !in lead && '}' !in lead
    ensures SplitObjects(lead + StreamTexts(cs) + "\n  ", 0, "") == Objects(cs, lead) <==> AllCountable(cs)
    decreases |cs|
  {
    hide SplitObjects, ConfigText, Countable;
    if cs == [] {
      NothingSplits(lead + "" + "\n  ");
    } else {
      var first := ConfigText(cs[0]);
      var rest := (if |cs| == 1 then "" else ",\n" + StreamTexts(cs[1..])) + "\n  ";
      assert lead + StreamTexts(cs) + "\n  " == (lead + "    ") + (first + rest);
      ConfigSplits(cs[0], lead + "    ", rest);
      StreamsSplit(cs[1..], ",\n");
      assert |cs| > 1 ==> rest == ",\n" + StreamTexts(cs[1..]) + "\n  ";
      if |cs| == 1 { NothingSplits(rest); }
      var pieces, tail := SplitObjects(lead + StreamTexts(cs) + "\n  ", 0, ""), Objects(cs[1..], ",\n");
      assert Objects(cs, lead) == [lead + "    " + first] + tail;
      if Countable(cs[0]) {
        assert pieces[1..] == SplitObjects(rest, 0, "");
        assert Objects(cs, lead)[1..] == tail;
        assert AllCountable(cs) <==> AllCountable(cs[1..]) by { CountableTail(cs); }
      } else {
        assert pieces != Objects(cs, lead);
      }
    }
  }

  lemma {:induction false} CountableTail(cs: seq<PersistedConfig>)
    requires cs != []
    ensures AllCountable(cs) <==> Countable(cs[0]) && AllCountable(cs[1..])
  {
    hide Countable;
    assert cs == [cs[0]] + cs[1..];
  }

  function AllRestored(cs: seq<PersistedConfig>, resolve: Option<string> -> string): (r: seq<PersistedConfig>)
    ensures |r| == |cs| && forall i :: 0 <= i < |cs| ==> r[i] == Restored(cs[i], resolve)
  {
    if cs == [] then [] else [Restored(cs[0], resolve)] + AllRestored(cs[1..], resolve)
  }

  lemma {:induction false} ObjectsRead(cs: seq<PersistedConfig>, lead: string, resolve: Option<string> -> string)
    requires '"' !in lead && forall i :: 0 <= i < |cs| ==> cs[i].IsValid() && Unbraced(cs[i])
    ensures ConfigsFrom(Objects(cs, lead), resolve) == Read(AllRestored(cs, resolve))
    decreases |cs|
  {
    hide ConfigFromJson, ConfigText, Unbraced, Restored, PersistedConfig.IsValid;
    if cs == [] {
    } else {
      ConfigReadsBack(lead + "    ", cs[0], resolve);
      ObjectsRead(cs[1..], ",\n", resolve);
      assert Objects(cs, lead)[1..] == Objects(cs[1..], ",\n");
    }
  }

  /**
    What a list of streams needs to be loaded as it was saved: valid streams, no closing brace inside
    their nested objects, and braces and brackets in their strings that balance.
   */
  ghost predicate Loadable(cs: seq<PersistedConfig>) {
    && (forall i :: 0 <= i < |cs| ==> cs[i].IsValid() && Unbraced(cs[i]) && Countable(cs[i]))
    && Balanced(Content(cs), '[', ']')
  }

  /**
    Saving and loading: the same streams in the same order, each with every persisted field as it was,
    routes and transmit role included, whatever the descriptions' direction says.
   */
  lemma {:induction false} SavedStreamsLoad(cs: seq<PersistedConfig>, resolve: Option<string> -> string)
    requires Loadable(cs)
    ensures FromJson(ToJson(cs), resolve) == Read(AllRestored(cs, resolve))
  {
    hide StreamsContent, SplitObjects, ConfigsFrom, Objects, ToJson, Unbraced, Countable, Balanced,
         PersistedConfig.IsValid;
    ContentIsFound(cs);
    StreamsSplit(cs, "\n");
    ObjectsRead(cs, "\n", resolve);
  }

  /** What was loaded and is saved again loads as itself, when the interface resolves to itself. */
  lemma {:induction false} LoadedStreamsReload(cs: seq<PersistedConfig>, resolve: Option<string> -> string)
    requires Loadable(AllRestored(cs, resolve))
    requires forall i :: 0 <= i < |cs| ==>
      var name := resolve(Some(cs[i].networkInterface)); resolve(Some(name)) == name
    ensures FromJson(ToJson(AllRestored(cs, resolve)), resolve) == Read(AllRestored(cs, resolve))
  {
    hide FromJson, ToJson, Loadable;
    var once := AllRestored(cs, resolve);
    SavedStreamsLoad(once, resolve);
    assert AllRestored(once, resolve) == once;
  }
}
