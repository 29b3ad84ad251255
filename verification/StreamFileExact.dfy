/**
  Exactly which saved lists load as they were saved: the loadable ones, among all lists without a closing
  brace in an interface name.  With one, a list can load in spite of being cut in the wrong place.
 */
module StreamFileExact {
  import opened StreamTypes
  import opened Text
  import opened JsonEscape
  import opened JsonFields
  import opened JsonDocument
  import opened JsonHits
  import opened StreamConfig
  import opened StreamConfigRoundTrip
  import opened StreamFile
  import opened StreamFileStrings
  import opened StreamFileBraces
  import opened StreamLayout

  predicate AllUnclosed(cs: seq<PersistedConfig>) { forall i :: 0 <= i < |cs| ==> '}' !in cs[i].networkInterface }

  // ---- what is loaded --------------------------------------------------------------------------

  ghost function ReadFrom(json: string, resolve: Option<string> -> string): seq<PersistedConfig> {
    match ConfigFromJson(json, resolve)
    case Read(c) => [c]
    case _ => []
  }

  /** The streams that are read from the pieces, whatever the others do. */
  ghost function Loaded(objects: seq<string>, resolve: Option<string> -> string): seq<PersistedConfig> {
    if objects == [] then [] else ReadFrom(objects[0], resolve) + Loaded(objects[1..], resolve)
  }

  lemma {:induction false} ReadIsLoaded(objects: seq<string>, resolve: Option<string> -> string)
    ensures var r := ConfigsFrom(objects, resolve); r.Read? ==> r.value == Loaded(objects, resolve)
  {
    hide ConfigFromJson;
    if objects == [] {
    } else {
      ReadIsLoaded(objects[1..], resolve);
    }
  }

  lemma {:induction false} LoadedConcat(a: seq<string>, b: seq<string>, resolve: Option<string> -> string)
    ensures Loaded(a + b, resolve) == Loaded(a, resolve) + Loaded(b, resolve)
  {
    hide ReadFrom;
    if a == [] {
      assert a + b == b;
    } else {
      assert (a + b)[1..] == a[1..] + b;
      LoadedConcat(a[1..], b, resolve);
      Regrouped(ReadFrom(a[0], resolve), Loaded(a[1..], resolve), Loaded(b, resolve));
    }
  }

  lemma {:induction false} Regrouped(a: seq<PersistedConfig>, b: seq<PersistedConfig>, c: seq<PersistedConfig>)
    ensures a + b + c == a + (b + c)
  {
  }

  ghost predicate AllValid(cs: seq<PersistedConfig>) { forall i :: 0 <= i < |cs| ==> cs[i].IsValid() }

  lemma {:induction false} LoadedIsValid(objects: seq<string>, resolve: Option<string> -> string)
    ensures AllValid(Loaded(objects, resolve))
  {
    hide ConfigFromJson, PersistedConfig.IsValid;
    if objects == [] {
    } else {
      LoadedIsValid(objects[1..], resolve);
      ReadIsValid(objects[0], resolve);
    }
  }

  lemma {:induction false} ReadIsValid(json: string, resolve: Option<string> -> string)
    ensures var r := ConfigFromJson(json, resolve); r.Read? ==> r.value.IsValid()
  {
  }

  lemma {:induction false} OnePiece(u: string, resolve: Option<string> -> string)
    ensures var r := ConfigFromJson(u, resolve); Loaded([u], resolve) == if r.Read? then [r.value] else []
  {
    hide ConfigFromJson;
    var none: seq<string> := [];
    assert [u][1..] == none && Loaded(none, resolve) == [];
  }

  /** Nothing is loaded from a piece without a session. */
  lemma {:induction false} NoSessionNoStream(u: string, resolve: Option<string> -> string)
    requires Search(u, "sdp", UpToBrace) == None
    ensures Loaded([u], resolve) == []
  {
    hide Search, ExtractString, ExtractBool, ExtractUInt64, MappingFromJson;
    OnePiece(u, resolve);
    assert !BlankSession.IsValid();
  }

  lemma {:induction false} NoHitNoStream(u: string, resolve: Option<string> -> string)
    requires Hits(u, "sdp") == 0
    ensures Loaded([u], resolve) == []
  {
    hide Loaded, Hits;
    NoHitNoField(u, "sdp", UpToBrace);
    NoSessionNoStream(u, resolve);
  }

  // ---- how many streams can come out of a text -------------------------------------------------

  lemma {:induction false} PieceAtMost(piece: string, objects: seq<string>, resolve: Option<string> -> string)
    ensures |Loaded([piece] + objects, resolve)| <= 1 + |Loaded(objects, resolve)|
    ensures |Loaded([piece] + objects, resolve)| <= Hits(piece, "sdp") + |Loaded(objects, resolve)|
  {
    hide Loaded, Hits;
    LoadedConcat([piece], objects, resolve);
    OnePiece(piece, resolve);
    if Hits(piece, "sdp") == 0 { NoHitNoStream(piece, resolve); }
  }

  lemma {:induction false} AtMostHits(s: string, depth: int, current: string, resolve: Option<string> -> string)
    ensures |Loaded(SplitObjects(s, depth, current), resolve)| <= Hits(current + s, "sdp")
    decreases |s|
  {
    hide Loaded, Hits;
    if s == "" {
      NothingLoaded(resolve);
    } else if s[0] == '}' && depth == 1 {
      var piece, rest := current + [s[0]], s[1..];
      AtMostHits(rest, 0, "", resolve);
      PieceAtMost(piece, SplitObjects(rest, 0, ""), resolve);
      HitsOfParts(piece, rest, "sdp");
      assert "" + rest == rest && piece + rest == current + s;
    } else {
      AtMostHits(s[1..], Deeper(s[0], '{', '}', depth), current + [s[0]], resolve);
      assert current + [s[0]] + s[1..] == current + s;
    }
  }

  lemma {:induction false} NothingLoaded(resolve: Option<string> -> string)
    ensures Loaded([], resolve) == []
  {
  }

  lemma {:induction false} HitsOfTail(s: string)
    requires s != ""
    ensures Hits(s[1..], "sdp") <= Hits(s, "sdp")
  {
    hide StartsKey;
  }

  /** Apart from the piece under way, no more than sessions begin in the rest. */
  lemma {:induction false} AtMostOneMore(s: string, depth: int, current: string, resolve: Option<string> -> string)
    ensures |Loaded(SplitObjects(s, depth, current), resolve)| <= 1 + Hits(s, "sdp")
    decreases |s|
  {
    hide Loaded, Hits;
    if s == "" {
      NothingLoaded(resolve);
    } else if s[0] == '}' && depth == 1 {
      var piece, rest := current + [s[0]], s[1..];
      AtMostHits(rest, 0, "", resolve);
      assert "" + rest == rest;
      PieceAtMost(piece, SplitObjects(rest, 0, ""), resolve);
      HitsOfTail(s);
    } else {
      AtMostOneMore(s[1..], Deeper(s[0], '{', '}', depth), current + [s[0]], resolve);
      HitsOfTail(s);
    }
  }

  // ---- the counter through a text --------------------------------------------------------------

  lemma {:induction false} SplitNoClose(w: string, t: string, depth: int, current: string)
    requires '}' !in w
    ensures SplitObjects(w + t, depth, current) == SplitObjects(t, depth + Net(w, '{', '}'), current + w)
  {
    if w == "" {
      assert w + t == t && current + w == current;
    } else {
      assert (w + t)[1..] == w[1..] + t;
      SplitNoClose(w[1..], t, Deeper(w[0], '{', '}', depth), current + [w[0]]);
      assert current + [w[0]] + w[1..] == current + w;
    }
  }

  /** Where the first piece ends. */
  lemma {:induction false} FirstPiece(s: string, depth: int, current: string) returns (y: string, z: string)
    requires SplitObjects(s, depth, current) != []
    ensures s == y + z && y != "" && y[|y| - 1] == '}'
    ensures SplitObjects(s, depth, current) == [current + y] + SplitObjects(z, 0, "")
    decreases |s|
  {
    if s[0] == '}' && depth == 1 {
      y, z := [s[0]], s[1..];
    } else {
      y, z := FirstPiece(s[1..], Deeper(s[0], '{', '}', depth), current + [s[0]]);
      assert current + [s[0]] + y == current + ([s[0]] + y);
      y := [s[0]] + y;
    }
  }

  // ---- through a description -------------------------------------------------------------------

  lemma {:induction false} PlainUnit(c: char)
    requires c != '{' && c != '}'
    ensures '{' !in EscapeChar(c) && '}' !in EscapeChar(c)
  {
  }

  lemma {:induction false} BraceUnit(c: char)
    requires c == '{' || c == '}'
    ensures EscapeChar(c) == [c]
  {
  }

  lemma {:induction false} EscapeSnoc(f: string, c: char)
    ensures Escape(f + [c]) == Escape(f) + EscapeChar(c)
  {
    hide EscapeChar;
    EscapeConcat(f, [c]);
    assert [c][1..] == "" && Escape("") == "";
    assert Escape([c]) == EscapeChar(c) + "" == EscapeChar(c);
  }

  /** One character of a description: the counter moves on, or a piece without a session ends. */
  lemma {:induction false} OneOfDescription(c: char, t: string, depth: int, f: string,
        resolve: Option<string> -> string)
    returns (d: int, g: string)
    ensures Loaded(SplitObjects(EscapeChar(c) + t, depth, Escape(f)), resolve) ==
      Loaded(SplitObjects(t, d, Escape(g)), resolve)
  {
    hide Escape, EscapeChar, Loaded, Search, Net, Low;
    EscapeSnoc(f, c);
    if c == '}' {
      BraceUnit(c);
      var s := [c] + t;
      assert s[0] == '}' && s[1..] == t;
      if depth == 1 {
        d, g := 0, "";
        SessionKeyIsKey();
        OpenIsNotSearched(f, "sdp", UpToBrace);
        NoSessionNoStream(Escape(f) + ['}'], resolve);
        LoadedConcat([Escape(f) + ['}']], SplitObjects(t, 0, ""), resolve);
        NothingEscaped();
      } else {
        d, g := depth - 1, f + [c];
      }
    } else {
      if c == '{' { BraceUnit(c); } else { PlainUnit(c); }
      assert '}' !in EscapeChar(c);
      SplitNoClose(EscapeChar(c), t, depth, Escape(f));
      d, g := depth + Net(EscapeChar(c), '{', '}'), f + [c];
    }
  }

  lemma {:induction false} SessionKeyIsKey()
    ensures IsKey("sdp") && IsKey("description")
  {
  }

  /** No stream is loaded from pieces that end inside a description. */
  lemma {:induction false} ThroughDescription(e: string, t: string, depth: int, f: string,
        resolve: Option<string> -> string)
    returns (d: int, g: string)
    ensures Loaded(SplitObjects(Escape(e) + t, depth, Escape(f)), resolve) ==
      Loaded(SplitObjects(t, d, Escape(g)), resolve)
    decreases |e|
  {
    hide EscapeChar, SplitObjects, Loaded;
    if e == "" {
      d, g := depth, f;
      assert Escape(e) + t == t;
    } else {
      d, g := OneOfDescription(e[0], Escape(e[1..]) + t, depth, f, resolve);
      assert Escape(e) + t == EscapeChar(e[0]) + (Escape(e[1..]) + t);
      d, g := ThroughDescription(e[1..], t, d, g, resolve);
    }
  }

  lemma {:induction false} LowOfUnit(c: char, t: string)
    ensures Low(EscapeChar(c) + t, '{', '}') ==
      var r := Net(EscapeChar(c), '{', '}') + Low(t, '{', '}'); if r < 0 then r else 0
    ensures Net(EscapeChar(c), '{', '}') == Deeper(c, '{', '}', 0)
  {
    hide Net, EscapeChar;
    UnitIsAlike(c, '{', '}');
    One(c, '{', '}');
    NetOfConcat(EscapeChar(c), t, '{', '}');
    if c == '}' { BraceUnit(c); }
  }

  /** The first piece that ends inside a description. */
  lemma {:induction false} FirstCut(e: string, t: string, depth: int, current: string) returns (a: string, b: string)
    requires depth >= 1 && depth + Low(Escape(e), '{', '}') <= 0
    ensures e == a + ['}'] + b
    ensures SplitObjects(Escape(e) + t, depth, current) ==
      [current + Escape(a) + ['}']] + SplitObjects(Escape(b) + t, 0, "")
    decreases |e|
  {
    hide EscapeChar, Net, Low, SplitObjects;
    NothingIsLow();
    var c, rest := e[0], e[1..];
    LowOfUnit(c, Escape(rest));
    NothingEscaped();
    assert Escape(e) + t == EscapeChar(c) + (Escape(rest) + t);
    if c == '}' && depth == 1 {
      BraceUnit(c);
      a, b := "", rest;
      CutHere(Escape(rest) + t, current);
      assert current + "" + ['}'] == current + ['}'];
    } else {
      Onward(c, Escape(rest) + t, depth, current);
      a, b := FirstCut(rest, t, Deeper(c, '{', '}', depth), current + EscapeChar(c));
      assert current + EscapeChar(c) + Escape(a) + ['}'] == current + (EscapeChar(c) + Escape(a)) + ['}'];
      assert Escape([c] + a) == EscapeChar(c) + Escape(a) by { assert ([c] + a)[1..] == a; }
      assert e == ([c] + a) + ['}'] + b;
      a := [c] + a;
    }
  }

  lemma {:induction false} NothingIsLow()
    ensures Low(Escape(""), '{', '}') == 0
  {
  }

  lemma {:induction false} CutHere(t: string, current: string)
    ensures SplitObjects(['}'] + t, 1, current) == [current + ['}']] + SplitObjects(t, 0, "")
  {
    assert (['}'] + t)[1..] == t;
  }

  lemma {:induction false} Onward(c: char, t: string, depth: int, current: string)
    requires !(c == '}' && depth == 1)
    ensures SplitObjects(EscapeChar(c) + t, depth, current) ==
      SplitObjects(t, Deeper(c, '{', '}', depth), current + EscapeChar(c))
  {
    hide EscapeChar, Net, Low;
    if c == '}' {
      BraceUnit(c);
      assert ([c] + t)[1..] == t;
    } else {
      if c == '{' { BraceUnit(c); } else { PlainUnit(c); }
      SplitNoClose(EscapeChar(c), t, depth, current);
      LowOfUnit(c, t);
    }
  }

  // ---- the array behind one stream -------------------------------------------------------------

  /** What follows the first stream in the array. */
  function AfterFirst(cs: seq<PersistedConfig>): string
    requires cs != []
  {
    (if |cs| == 1 then "" else ",\n" + StreamTexts(cs[1..])) + "\n  "
  }

  lemma {:induction false} FirstApart(cs: seq<PersistedConfig>, lead: string)
    requires cs != []
    ensures lead + StreamTexts(cs) + "\n  " == (lead + "    ") + (ConfigText(cs[0]) + AfterFirst(cs))
  {
    hide ConfigText;
  }

  lemma {:induction false} NextApart(cs: seq<PersistedConfig>)
    requires |cs| > 1
    ensures AfterFirst(cs) == ",\n    " + (ConfigText(cs[1]) + AfterFirst(cs[1..]))
  {
    hide ConfigText;
    FirstApart(cs[1..], ",\n");
    assert AfterFirst(cs) == ",\n" + StreamTexts(cs[1..]) + "\n  ";
    assert ",\n" + "    " == ",\n    ";
  }

  lemma {:induction false} HitsConfig(c: PersistedConfig, v: string)
    ensures Hits(ConfigText(c) + v, "sdp") == 1 + Hits(v, "sdp")
  {
    hide Hits, ConfigText, Head, Mid, Tail, Escape;
    Layout(c);
    assert ConfigText(c) + v == Head(c) + (Escape(c.description) + (Mid(c) + (Tail(c) + v)));
    HitsFront(c, Tail(c) + v);
    HitsTail(c, v);
  }

  /** As many sessions begin behind the first stream as there are streams behind it. */
  lemma {:induction false} HitsAfterFirst(cs: seq<PersistedConfig>)
    requires cs != []
    ensures Hits(AfterFirst(cs), "sdp") == |cs| - 1
    decreases |cs|
  {
    hide Hits, ConfigText;
    if |cs| == 1 {
      assert AfterFirst(cs) == "\n  " && "\n  " + "" == "\n  ";
      HitsPlain("\n  ", "", "sdp");
      NoHits();
    } else {
      NextApart(cs);
      HitsPlain(",\n    ", ConfigText(cs[1]) + AfterFirst(cs[1..]), "sdp");
      HitsConfig(cs[1], AfterFirst(cs[1..]));
      HitsAfterFirst(cs[1..]);
    }
  }

  lemma {:induction false} NoHits()
    ensures Hits("", "sdp") == 0
  {
  }

  // ---- a description that was cut is not loaded ------------------------------------------------

  /** A beginning of a session that reaches a closing brace holds its key. */
  lemma {:induction false} SessionHit(y: string)
    requires |y| > 8 && y[..8] == SESSION
    ensures Hits(y, "sdp") >= 1
  {
    assert SESSION[0] == '"' && SESSION[1..4] == "sdp" && SESSION[4] == '"' && SESSION[5] == ':';
    var t := y[1..];
    assert forall i :: 0 <= i < 8 ==> y[i] == SESSION[i];
    assert t[..3] == "sdp" && t[3] == '"' && t[4..][0] == ':';
    assert StartsKey(t, "sdp");
  }

  lemma {:induction false} EscapedBrace(raw: string, p: nat) returns (g: string)
    requires p < |Escape(raw)| && Escape(raw)[p] == '}'
    ensures Escape(raw)[..p] == Escape(g)
    decreases |raw|
  {
    hide EscapeChar;
    var c, rest := raw[0], raw[1..];
    var unit := EscapeChar(c);
    if p >= |unit| {
      g := EscapedBrace(rest, p - |unit|);
      assert ([c] + g)[1..] == g;
      assert Escape(raw)[..p] == unit + Escape(rest)[..p - |unit|];
      g := [c] + g;
    } else {
      assert '}' in unit;
      if c != '}' {
        if c == '{' { BraceUnit(c); } else { PlainUnit(c); }
      } else {
        BraceUnit(c);
      }
      g := "";
      assert Escape(raw)[..0] == "";
    }
  }

  /** The places where a piece can end behind a session, before the next one begins. */
  lemma {:induction false} WherePiecesEnd(cs: seq<PersistedConfig>, y: string, z: string) returns (g: string)
    requires |cs| > 1 && '}' !in cs[1].networkInterface
    requires Tail(cs[0]) + AfterFirst(cs) == y + z && y != "" && y[|y| - 1] == '}' && Hits(y, "sdp") <= 1
    ensures |y| <= |Tail(cs[0])| || y == Tail(cs[0]) + (",\n    " + (Head(cs[1]) + (Escape(g) + ['}'])))
  {
    hide Hits, ConfigText, Head, Mid, Tail, Escape, AfterFirst;
    g := "";
    var t, h, e, m := Tail(cs[0]), ",\n    " + Head(cs[1]), Escape(cs[1].description), Mid(cs[1]);
    var rest := Tail(cs[1]) + AfterFirst(cs[1..]);
    NextApart(cs);
    Layout(cs[1]);
    var all := t + (h + (e + (m + rest)));
    assert Tail(cs[0]) + AfterFirst(cs) == all;
    var n := |y| - 1;
    assert all[n] == '}' && all[..|y|] == y;
    HeadBraces(cs[1]);
    MidHasNoBrace(cs[1]);
    NotThere(t, h, e + (m + rest), n);
    if n >= |t| {
      var p := n - |t| - |h|;
      if p < |e| {
        assert all[n] == e[p];
        g := EscapedBrace(cs[1].description, p);
        assert y == t + (h + (e[..p] + ['}']));
      } else {
        assert all == (t + (h + e)) + (m + rest);
        NotThere(t + (h + e), m, rest, n);
        assert all == t + ((h + (e + m)) + rest);
        TwoSessions(cs, y, z, t, h + (e + m), rest);
      }
    }
  }

  lemma {:induction false} NotThere(a: string, w: string, b: string, n: nat)
    requires n < |a + (w + b)| && (a + (w + b))[n] == '}' && '}' !in w
    ensures n < |a| || n >= |a| + |w|
  {
  }

  lemma {:induction false} BeginsWithSession(c: PersistedConfig, more: string, y: string, z: string)
    requires Tail(c) + more == y + z && y != "" && y[|y| - 1] == '}'
    ensures Hits(y, "sdp") >= 1
  {
    hide Hits, TailIn;
    TailBegins(c);
    var all := y + z;
    assert all[..8] == TailIn(c)[..8];
    assert all == "" + (SESSION + all[8..]) && all[|y| - 1] == '}';
    NotThere("", SESSION, all[8..], |y| - 1);
    assert y[..8] == all[..8];
    SessionHit(y);
  }

  lemma {:induction false} TwoSessions(cs: seq<PersistedConfig>, y: string, z: string, t: string, gap: string,
        rest: string)
    requires |cs| > 1 && t == Tail(cs[0]) && rest == Tail(cs[1]) + AfterFirst(cs[1..])
    requires y + z == t + (gap + rest) && |y| > |t| + |gap| && y[|y| - 1] == '}'
    ensures Hits(y, "sdp") >= 2
  {
    hide Hits, TailIn, AfterFirst;
    var k := |t| + |gap|;
    var v := y[k..];
    assert (y + z)[k..] == v + z && (t + (gap + rest))[k..] == rest;
    assert (y + z)[..k] == y[..k] && (t + (gap + rest))[..k] == t + gap;
    BeginsWithSession(cs[1], AfterFirst(cs[1..]), v, z);
    assert t + "" == t;
    BeginsWithSession(cs[0], "", t, "");
    HitsOfParts(t, gap, "sdp");
    HitsOfParts(y[..k], v, "sdp");
    assert y == y[..k] + v;
  }

  /** Such a piece, begun inside a description, has no description to read. */
  lemma {:induction false} NoDescription(cs: seq<PersistedConfig>, f: string, y: string, z: string)
    requires cs != [] && AllUnclosed(cs)
    requires Tail(cs[0]) + AfterFirst(cs) == y + z && y != "" && y[|y| - 1] == '}' && Hits(y, "sdp") <= 1
    ensures Search(Escape(f) + (Mid(cs[0]) + y), "description", QuotedText) == None
  {
    hide Hits, Search, Head, Mid, Tail, Escape, AfterFirst;
    var t, gap := Tail(cs[0]), ",\n    ";
    NoDescriptionInMid(f, cs[0], y);
    if |cs| == 1 {
      LastGap(cs);
      NoDescriptionInTail(cs[0], AfterFirst(cs));
      NotFoundInFront(y, z);
    } else {
      var g := WherePiecesEnd(cs, y, z);
      if |y| <= |t| {
        assert (y + z)[..|t|] == t && t == y + t[|y|..];
        NoDescriptionInTail(cs[0], "");
        assert t + "" == t;
        NothingFound();
        NotFoundInFront(y, t[|y|..]);
      } else {
        var cut := Head(cs[1]) + (Escape(g) + ['}']);
        NoDescriptionInTail(cs[0], gap + cut);
        SkipPlain(gap, cut, "description", QuotedText);
        NoDescriptionCut(cs[1], g);
      }
    }
  }

  lemma {:induction false} NotFoundInFront(u: string, v: string)
    requires Search(u + v, "description", QuotedText) == None
    ensures Search(u, "description", QuotedText) == None
  {
    hide Search;
    if Search(u, "description", QuotedText).Some? { SearchGrows(u, v, "description"); }
  }

  lemma {:induction false} NothingFound()
    ensures Search("", "description", QuotedText) == None
  {
  }

  lemma {:induction false} LastGap(cs: seq<PersistedConfig>)
    requires |cs| == 1
    ensures Search(AfterFirst(cs), "description", QuotedText) == None
  {
    hide Search;
    assert AfterFirst(cs) == "\n  " && "\n  " + "" == "\n  ";
    SkipPlain("\n  ", "", "description", QuotedText);
    NothingFound();
  }

  lemma {:induction false} ReadDescription(u: string, resolve: Option<string> -> string)
    requires Search(u, "description", QuotedText) == None && ConfigFromJson(u, resolve).Read?
    ensures ConfigFromJson(u, resolve).value.description == ""
  {
    hide Search, PersistedConfig.IsValid, ExtractBool, ExtractUInt64, ObjectField, MappingFromJson, SdpFromJson;
  }

  lemma {:induction false} FirstOfRestored(cs: seq<PersistedConfig>, resolve: Option<string> -> string)
    requires cs != []
    ensures AllRestored(cs, resolve) == [Restored(cs[0], resolve)] + AllRestored(cs[1..], resolve)
    ensures AllRestored(cs, resolve)[0].description == cs[0].description
  {
  }

  /** From inside the description of the first stream on, the list is not loaded as it was saved. */
  lemma {:induction false} DescriptionIsLost(cs: seq<PersistedConfig>, depth: int, f: string,
        resolve: Option<string> -> string)
    requires cs != [] && AllUnclosed(cs) && cs[0].description != ""
    ensures Loaded(SplitObjects(Mid(cs[0]) + (Tail(cs[0]) + AfterFirst(cs)), depth, Escape(f)), resolve)
      != AllRestored(cs, resolve)
    ensures |Loaded(SplitObjects(Mid(cs[0]) + (Tail(cs[0]) + AfterFirst(cs)), depth, Escape(f)), resolve)| <= |cs|
  {
    hide Hits, Search, Loaded, Mid, Tail, Escape, AfterFirst, Net, Low, ConfigFromJson, AllRestored, SplitObjects;
    var rest := Tail(cs[0]) + AfterFirst(cs);
    var current := Escape(f) + Mid(cs[0]);
    MidHasNoBrace(cs[0]);
    SplitNoClose(Mid(cs[0]), rest, depth, Escape(f));
    var d := depth + Net(Mid(cs[0]), '{', '}');
    var pieces := SplitObjects(rest, d, current);
    FirstOfRestored(cs, resolve);
    if pieces == [] {
      NothingLoaded(resolve);
    } else {
      var y, z := FirstPiece(rest, d, current);
      SplitHits(cs, y, z);
      AtMostHits(z, 0, "", resolve);
      assert "" + z == z;
      var objects := SplitObjects(z, 0, "");
      PieceAtMost(current + y, objects, resolve);
      if |Loaded(pieces, resolve)| == |cs| {
        assert current + y == Escape(f) + (Mid(cs[0]) + y);
        NoDescription(cs, f, y, z);
        FirstIsEmpty(current + y, objects, resolve);
      }
    }
  }

  lemma {:induction false} FirstIsEmpty(u: string, objects: seq<string>, resolve: Option<string> -> string)
    requires Search(u, "description", QuotedText) == None
    ensures var all := Loaded([u] + objects, resolve);
      all == Loaded(objects, resolve) || (all != [] && all[0].description == "")
  {
    hide Loaded, ConfigFromJson, Search;
    LoadedConcat([u], objects, resolve);
    OnePiece(u, resolve);
    if ConfigFromJson(u, resolve).Read? { ReadDescription(u, resolve); }
  }

  lemma {:induction false} SplitHits(cs: seq<PersistedConfig>, y: string, z: string)
    requires cs != [] && Tail(cs[0]) + AfterFirst(cs) == y + z && y != "" && y[|y| - 1] == '}'
    ensures Hits(y, "sdp") >= 1 && Hits(y, "sdp") + Hits(z, "sdp") <= |cs|
  {
    hide Hits, AfterFirst, Tail;
    BeginsWithSession(cs[0], AfterFirst(cs), y, z);
    HitsTail(cs[0], AfterFirst(cs));
    HitsAfterFirst(cs);
    HitsOfParts(y, z, "sdp");
  }

  // ---- a stream that leaves the counter raised -------------------------------------------------

  lemma {:induction false} LayoutBefore(c: PersistedConfig, front: string, rest: string)
    ensures front + (ConfigText(c) + rest) ==
      (front + Head(c)) + (Escape(c.description) + (Mid(c) + (Tail(c) + rest)))
  {
    hide ConfigText, Head, Mid, Tail, Escape;
    Layout(c);
  }

  lemma {:induction false} UpToDescription(c: PersistedConfig, front: string, t: string, depth: int, current: string)
    requires '{' !in front && '}' !in front
    ensures SplitObjects((front + Head(c)) + t, depth, current) ==
      SplitObjects(t, depth + 1, current + (front + Head(c)))
  {
    hide Head, Net, Low, SplitObjects;
    HeadBraces(c);
    PlainIsBalanced(front, '{', '}');
    NetOfConcat(front, Head(c), '{', '}');
    SplitNoClose(front + Head(c), t, depth, current);
  }

  /** With the counter raised at its start, an array does not give one stream more than it holds, as saved. */
  lemma {:induction false} RaisedIsLost(
      cs: seq<PersistedConfig>, lead: string, depth: int, current: string, x: PersistedConfig,
      resolve: Option<string> -> string)
    requires depth >= 1 && '{' !in lead && '}' !in lead && AllUnclosed(cs) && AllUnbraced(cs)
    ensures Loaded(SplitObjects(lead + StreamTexts(cs) + "\n  ", depth, current), resolve)
      != [x] + AllRestored(cs, resolve)
  {
    hide Loaded, Head, Mid, Tail, Escape, Net, Low, SplitObjects, AllUnbraced, AfterFirst, StreamTexts, AllRestored;
    if cs == [] {
      NoStreamsLeft(lead, depth, current, resolve);
    } else {
      var c, front, rest := cs[0], lead + "    ", AfterFirst(cs);
      FirstApart(cs, lead);
      LayoutBefore(c, front, rest);
      var t := Mid(c) + (Tail(c) + rest);
      UpToDescription(c, front, Escape(c.description) + t, depth, current);
      var so := current + (front + Head(c));
      if depth + 1 + Low(Escape(c.description), '{', '}') <= 0 {
        CutInDescription(cs, depth + 1, so, x, resolve);
      } else {
        PastDescription(cs, depth + 1, so, resolve);
        FirstOfRestored(cs, resolve);
        RestoredCount(cs, resolve);
      }
    }
  }

  lemma {:induction false} RestoredCount(cs: seq<PersistedConfig>, resolve: Option<string> -> string)
    ensures |AllRestored(cs, resolve)| == |cs|
  {
  }

  lemma {:induction false} NothingToSplit(depth: int, current: string)
    ensures SplitObjects("", depth, current) == [] && StreamTexts([]) == ""
  {
  }

  lemma {:induction false} NoStreamsLeft(lead: string, depth: int, current: string, resolve: Option<string> -> string)
    requires '}' !in lead
    ensures Loaded(SplitObjects(lead + StreamTexts([]) + "\n  ", depth, current), resolve) == []
  {
    hide Net, Low, Loaded, SplitObjects, StreamTexts;
    var s := lead + "" + "\n  ";
    SplitNoClose(s, "", depth, current);
    assert s + "" == s;
    NothingToSplit(depth, current);
    NothingToSplit(depth + Net(s, '{', '}'), current + s);
    NothingLoaded(resolve);
  }

  /** A piece that ends inside the description takes everything before it along; what follows is lost. */
  lemma {:induction false} CutInDescription(
      cs: seq<PersistedConfig>, depth: int, current: string, x: PersistedConfig, resolve: Option<string> -> string)
    requires cs != [] && AllUnclosed(cs) && depth >= 1 && depth + Low(Escape(cs[0].description), '{', '}') <= 0
    ensures var c := cs[0];
      var t := Mid(c) + (Tail(c) + AfterFirst(cs));
      Loaded(SplitObjects(Escape(c.description) + t, depth, current), resolve) != [x] + AllRestored(cs, resolve)
  {
    hide Loaded, Mid, Tail, Escape, Low, SplitObjects, AfterFirst, AllRestored;
    var c := cs[0];
    var t := Mid(c) + (Tail(c) + AfterFirst(cs));
    var a, b := FirstCut(c.description, t, depth, current);
    var piece := current + Escape(a) + ['}'];
    var objects := SplitObjects(Escape(b) + t, 0, "");
    NothingEscaped();
    var d, g := ThroughDescription(b, t, 0, "", resolve);
    DescriptionIsLost(cs, d, g, resolve);
    LoadedConcat([piece], objects, resolve);
    OnePiece(piece, resolve);
    RestoredCount(cs, resolve);
    NotOneMore(Loaded([piece], resolve), Loaded(objects, resolve), x, AllRestored(cs, resolve));
  }

  lemma {:induction false} NotOneMore(a: seq<PersistedConfig>, b: seq<PersistedConfig>, x: PersistedConfig,
        all: seq<PersistedConfig>)
    requires |a| <= 1 && |b| <= |all| && b != all
    ensures a + b != [x] + all
  {
    assert ([x] + all)[1..] == all;
    assert |a| == 1 ==> (a + b)[1..] == b;
  }

  /** Past the description no piece ends before the stream does. */
  lemma {:induction false} PastDescription(cs: seq<PersistedConfig>, depth: int, current: string,
        resolve: Option<string> -> string)
    requires cs != [] && AllUnclosed(cs) && AllUnbraced(cs) && depth + Low(Escape(cs[0].description), '{', '}') >= 1
    ensures var c := cs[0];
      var t := Mid(c) + (Tail(c) + AfterFirst(cs));
      |Loaded(SplitObjects(Escape(c.description) + t, depth, current), resolve)| <= |cs|
  {
    hide Loaded, Hits, Mid, TailIn, Escape, Net, Low, SplitObjects, AfterFirst, Unbraced;
    var c, rest := cs[0], AfterFirst(cs);
    var end := ['}'] + rest;
    var e, m, i := Escape(c.description), Mid(c), TailIn(c);
    assert m + (Tail(c) + rest) == (m + i) + end;
    assert e + (m + (Tail(c) + rest)) == (e + (m + i)) + end;
    MidHasNoBrace(c);
    PlainRises(m);
    TailRises(c);
    RisesConcat(m, i);
    NetOfConcat(e, m + i, '{', '}');
    LowIsReached(e, '{', '}');
    SplitPasses(e + (m + i), end, depth, current);
    AtMostOneMore(end, depth + Net(e + (m + i), '{', '}'), current + (e + (m + i)), resolve);
    HitsPlain(['}'], rest, "sdp");
    HitsAfterFirst(cs);
  }

  // ---- so every stream leaves the counter alone ------------------------------------------------

  /** The first stream, if the list is loaded as it was saved. */
  lemma {:induction false} FirstIsCountable(cs: seq<PersistedConfig>, lead: string, resolve: Option<string> -> string)
    requires cs != [] && '{' !in lead && '}' !in lead && '"' !in lead && AllUnclosed(cs) && AllUnbraced(cs)
    requires Loaded(SplitObjects(lead + StreamTexts(cs) + "\n  ", 0, ""), resolve) == AllRestored(cs, resolve)
    ensures Countable(cs[0])
  {
    hide Loaded, Head, Mid, Tail, Escape, Net, Low, SplitObjects, AfterFirst, StreamTexts, AllRestored, Balanced,
         Unbraced;
    var c, front, rest := cs[0], lead + "    ", AfterFirst(cs);
    FirstApart(cs, lead);
    FirstOfRestored(cs, resolve);
    if Low(Escape(c.description), '{', '}') < 0 {
      CleanCut(cs, front, resolve);
    } else if !Countable(c) {
      RaisedFirst(c, front, rest);
      var d, so := Net(Inside(ConfigMembers(c), 4), '{', '}'), front + ConfigText(c);
      var x := Restored(c, resolve);
      if |cs| == 1 {
        assert rest == "" + StreamTexts([]) + "\n  " by { LastRest(cs); }
        NoStreamsLeft("", d, so, resolve);
      } else {
        assert rest == ",\n" + StreamTexts(cs[1..]) + "\n  " by { LaterRest(cs); }
        RaisedIsLost(cs[1..], ",\n", d, so, x, resolve);
      }
    }
  }

  lemma {:induction false} LastRest(cs: seq<PersistedConfig>)
    requires |cs| == 1
    ensures AfterFirst(cs) == "" + StreamTexts([]) + "\n  "
  {
  }

  lemma {:induction false} LaterRest(cs: seq<PersistedConfig>)
    requires |cs| > 1
    ensures AfterFirst(cs) == ",\n" + StreamTexts(cs[1..]) + "\n  "
  {
  }

  lemma {:induction false} OpenBrace(t: string, current: string)
    ensures SplitObjects(['{'] + t, 0, current) == SplitObjects(t, 1, current + ['{'])
  {
    assert (['{'] + t)[1..] == t;
  }

  lemma {:induction false} CloseRaised(t: string, depth: int, current: string)
    requires depth != 1
    ensures SplitObjects(['}'] + t, depth, current) == SplitObjects(t, depth - 1, current + ['}'])
  {
    assert (['}'] + t)[1..] == t;
  }

  lemma {:induction false} RaisedFirst(c: PersistedConfig, front: string, rest: string)
    requires '{' !in front && '}' !in front && Unbraced(c) && '}' !in c.networkInterface
    requires Low(Escape(c.description), '{', '}') == 0 && !Countable(c)
    ensures var d := Net(Inside(ConfigMembers(c), 4), '{', '}');
      d >= 1 && SplitObjects(front + (ConfigText(c) + rest), 0, "") == SplitObjects(rest, d, front + ConfigText(c))
  {
    hide Net, Low, Inside, Render, Escape, Unbraced, SplitObjects, ConfigMembers;
    var inside, end := Inside(ConfigMembers(c), 4), ['}'] + rest;
    InsideRises(c);
    ObjectIsBraced(ConfigMembers(c), 4);
    var s := ['{'] + (inside + end);
    assert ConfigText(c) + rest == s && "" + front == front;
    SplitPassesPlain(front, s, 0, "");
    OpenBrace(inside + end, front);
    SplitPasses(inside, end, 1, front + ['{']);
    CloseRaised(rest, 1 + Net(inside, '{', '}'), front + ['{'] + inside);
    assert front + ['{'] + inside + ['}'] == front + (['{'] + inside + ['}']);
  }

  /** A first piece that ends inside the first description. */
  lemma {:induction false} CleanCut(cs: seq<PersistedConfig>, front: string, resolve: Option<string> -> string)
    requires cs != [] && '{' !in front && '}' !in front && '"' !in front && AllUnclosed(cs)
    requires Low(Escape(cs[0].description), '{', '}') < 0
    ensures Loaded(SplitObjects(front + (ConfigText(cs[0]) + AfterFirst(cs)), 0, ""), resolve) != AllRestored(cs,
      resolve)
  {
    hide Loaded, Hits, Head, Mid, Tail, Escape, Low, SplitObjects, AfterFirst, AllRestored, ConfigText;
    var c := cs[0];
    var t := Mid(c) + (Tail(c) + AfterFirst(cs));
    LayoutBefore(c, front, AfterFirst(cs));
    UpToDescription(c, front, Escape(c.description) + t, 0, "");
    var so := "" + (front + Head(c));
    var a, b := FirstCut(c.description, t, 1, so);
    var piece, objects := so + Escape(a) + ['}'], SplitObjects(Escape(b) + t, 0, "");
    NoSessionYet(c, front, a, b, piece);
    NoHitNoStream(piece, resolve);
    LoadedConcat([piece], objects, resolve);
    NothingEscaped();
    var d, g := ThroughDescription(b, t, 0, "", resolve);
    DescriptionIsLost(cs, d, g, resolve);
  }

  lemma {:induction false} NoSessionYet(c: PersistedConfig, front: string, a: string, b: string, piece: string)
    requires '"' !in front && c.description == a + ['}'] + b && piece == "" + (front + Head(c)) + Escape(a) + ['}']
    ensures Hits(piece, "sdp") == 0
  {
    hide Hits, Head, Mid, Escape;
    EscapeConcat(a + ['}'], b);
    EscapeConcat(a, ['}']);
    BraceIsPlain();
    var whole := Head(c) + (Escape(c.description) + (Mid(c) + ""));
    HitsFront(c, "");
    NoHits();
    HitsPlain(front, whole, "sdp");
    var rest := Escape(b) + (Mid(c) + "");
    assert front + whole == piece + rest;
    HitsOfParts(piece, rest, "sdp");
  }

  lemma {:induction false} AllAreCountable(cs: seq<PersistedConfig>, lead: string, resolve: Option<string> -> string)
    requires '{' !in lead && '}' !in lead && '"' !in lead && AllUnclosed(cs) && AllUnbraced(cs)
    requires Loaded(SplitObjects(lead + StreamTexts(cs) + "\n  ", 0, ""), resolve) == AllRestored(cs, resolve)
    ensures AllCountable(cs)
    decreases |cs|
  {
    hide Loaded, SplitObjects, AfterFirst, StreamTexts, AllRestored, Countable, Unbraced, ConfigText, Hits;
    if cs == [] {
    } else {
      FirstIsCountable(cs, lead, resolve);
      CountableTail(cs);
      var front, rest := lead + "    ", AfterFirst(cs);
      FirstApart(cs, lead);
      ConfigSplits(cs[0], front, rest);
      if |cs| > 1 {
        LaterRest(cs);
        FirstLoads(front + ConfigText(cs[0]), rest, cs, resolve);
        AllAreCountable(cs[1..], ",\n", resolve);
      }
    }
  }

  lemma {:induction false} FirstLoads(piece: string, rest: string, cs: seq<PersistedConfig>,
        resolve: Option<string> -> string)
    requires cs != [] && rest == AfterFirst(cs)
    requires Loaded([piece] + SplitObjects(rest, 0, ""), resolve) == AllRestored(cs, resolve)
    ensures Loaded(SplitObjects(rest, 0, ""), resolve) == AllRestored(cs[1..], resolve)
  {
    hide Loaded, SplitObjects, AfterFirst, AllRestored, Hits;
    var objects := SplitObjects(rest, 0, "");
    LoadedConcat([piece], objects, resolve);
    OnePiece(piece, resolve);
    AtMostHits(rest, 0, "", resolve);
    assert "" + rest == rest;
    HitsAfterFirst(cs);
    FirstOfRestored(cs, resolve);
    RestoredCount(cs, resolve);
    RestoredCount(cs[1..], resolve);
    var one, more, all := Loaded([piece], resolve), Loaded(objects, resolve), AllRestored(cs, resolve);
    assert |one| == 1;
    assert (one + more)[1..] == more && all[1..] == AllRestored(cs[1..], resolve);
  }

  // ---- a beginning of the array ----------------------------------------------------------------

  lemma {:induction false} RestoredIsValid(c: PersistedConfig, resolve: Option<string> -> string)
    ensures Restored(c, resolve).IsValid() <==> c.IsValid()
  {
  }

  /** A closing bracket of the file is in the array, not right at its end, or is the array's own. */
  lemma {:induction false} WhereBracketsAre(cs: seq<PersistedConfig>, i: nat)
    requires i < |Content(cs) + ENDING| && (Content(cs) + ENDING)[i] == ']'
    ensures i < |Content(cs)| - 3 || i == |Content(cs)|
  {
    hide Content;
    ContentTail(cs);
    var n := |Content(cs)|;
    assert i >= n ==> (Content(cs) + ENDING)[i] == ENDING[i - n];
    assert ENDING[1] != ']' && ENDING[2] != ']';
  }

  /** The array found is a beginning of what was written, and all of it if it reaches the last brace. */
  lemma {:induction false} ContentIsBeginning(cs: seq<PersistedConfig>)
    ensures var t := StreamsContent(ToJson(cs));
      t.Some? ==>
        && |t.value| <= |Content(cs)| && t.value == Content(cs)[..|t.value|]
        && (|t.value| >= |Content(cs)| - 3 ==> t.value == Content(cs))
  {
    hide Content, FindText, Find, CloseAt;
    var after := Content(cs) + ENDING;
    var json := OPENING + (STREAMS_KEY + (": " + (['['] + after)));
    assert ToJson(cs) == json;
    KeyIsFound(": " + (['['] + after));
    BracketIsFound(after);
    var r := CloseAt(after, '[', ']', 1);
    if r.Some? {
      ClosesOnBracket(after, 1);
      WhereBracketsAre(cs, r.value);
      assert after[..r.value] == Content(cs)[..r.value];
    }
  }

  lemma {:induction false} ClosesOnBracket(s: string, depth: int)
    ensures var r := CloseAt(s, '[', ']', depth); r.Some? ==> s[r.value] == ']'
    decreases |s|
  {
    if s == "" {
    } else if s[0] == ']' && depth == 1 {
    } else {
      ClosesOnBracket(s[1..], Deeper(s[0], '[', ']', depth));
    }
  }

  lemma {:induction false} ContentTail(cs: seq<PersistedConfig>)
    ensures var s := Content(cs); |s| >= 3 && forall k :: |s| - 3 <= k < |s| ==> s[k] != ']'
  {
    hide StreamTexts;
    var front := "\n" + StreamTexts(cs);
    assert Content(cs) == front + "\n  ";
    assert "\n  "[0] == '\n' && "\n  "[1] == ' ' && "\n  "[2] == ' ';
  }

  lemma {:induction false} AllWereValid(cs: seq<PersistedConfig>, resolve: Option<string> -> string)
    requires AllValid(AllRestored(cs, resolve))
    ensures AllValid(cs)
  {
    hide Restored, PersistedConfig.IsValid;
    forall i | 0 <= i < |cs|
      ensures cs[i].IsValid()
    {
      assert AllRestored(cs, resolve)[i].IsValid();
      RestoredIsValid(cs[i], resolve);
    }
  }

  lemma {:induction false} BeginningSplits(s: string, k: nat, depth: int, current: string)
    requires k <= |s|
    ensures SplitObjects(s[..k], depth, current) <= SplitObjects(s, depth, current)
    decreases |s|
  {
    if k == 0 {
      assert s[..k] == "";
    } else {
      assert s[..k][0] == s[0] && s[..k][1..] == s[1..][..k - 1];
      if s[0] == '}' && depth == 1 {
        BeginningSplits(s[1..], k - 1, 0, "");
      } else {
        BeginningSplits(s[1..], k - 1, Deeper(s[0], '{', '}', depth), current + [s[0]]);
      }
    }
  }

  lemma {:induction false} BeginningLoads(a: seq<string>, b: seq<string>, resolve: Option<string> -> string)
    requires a <= b
    ensures |Loaded(a, resolve)| <= |a| && Loaded(a, resolve) <= Loaded(b, resolve)
  {
    hide Loaded;
    assert b == a + b[|a|..];
    LoadedConcat(a, b[|a|..], resolve);
    NoMoreThanPieces(a, resolve);
  }

  lemma {:induction false} NoMoreThanPieces(objects: seq<string>, resolve: Option<string> -> string)
    ensures |Loaded(objects, resolve)| <= |objects|
  {
    hide ConfigFromJson;
    if objects == [] {
    } else {
      NoMoreThanPieces(objects[1..], resolve);
    }
  }

  function Lengths(pieces: seq<string>): nat { if pieces == [] then 0 else |pieces[0]| + Lengths(pieces[1..]) }

  lemma {:induction false} PiecesFit(s: string, depth: int, current: string)
    ensures Lengths(SplitObjects(s, depth, current)) <= |current| + |s|
    decreases |s|
  {
    if s == "" {
    } else if s[0] == '}' && depth == 1 {
      PiecesFit(s[1..], 0, "");
      var rest := SplitObjects(s[1..], 0, "");
      assert ([current + [s[0]]] + rest)[1..] == rest;
    } else {
      PiecesFit(s[1..], Deeper(s[0], '{', '}', depth), current + [s[0]]);
    }
  }

  lemma {:induction false} StreamsFill(cs: seq<PersistedConfig>, lead: string)
    requires cs != []
    ensures Lengths(Objects(cs, lead)) == |lead| + |StreamTexts(cs)|
    decreases |cs|
  {
    hide ConfigText;
    assert Objects(cs, lead)[1..] == Objects(cs[1..], ",\n");
    if |cs| == 1 {
      assert Objects(cs[1..], ",\n") == [];
    } else {
      StreamsFill(cs[1..], ",\n");
    }
  }

  lemma {:induction false} ObjectCount(cs: seq<PersistedConfig>, lead: string)
    ensures |Objects(cs, lead)| == |cs|
  {
    hide ConfigText;
    if cs == [] {
    } else {
      ObjectCount(cs[1..], ",\n");
    }
  }

  lemma {:induction false} HitsContent(cs: seq<PersistedConfig>)
    ensures Hits(Content(cs), "sdp") == |cs|
  {
    hide Hits, ConfigText, AfterFirst, StreamTexts;
    ContentIs(cs);
    if cs == [] {
      NothingToSplit(0, "");
      assert Content(cs) == "\n" + "" + "\n  " && Content(cs) + "" == Content(cs);
      HitsPlain(Content(cs), "", "sdp");
      NoHits();
    } else {
      FirstApart(cs, "\n");
      HitsPlain("\n" + "    ", ConfigText(cs[0]) + AfterFirst(cs), "sdp");
      HitsConfig(cs[0], AfterFirst(cs));
      HitsAfterFirst(cs);
    }
  }

  /** A beginning of the array that gives the whole list: every stream counts, and it reaches the last brace. */
  lemma {:induction false} WholeFromBeginning(cs: seq<PersistedConfig>, k: nat, resolve: Option<string> -> string)
    requires AllUnclosed(cs) && AllUnbraced(cs) && k <= |Content(cs)|
    requires Loaded(SplitObjects(Content(cs)[..k], 0, ""), resolve) == AllRestored(cs, resolve)
    ensures AllCountable(cs) && (cs != [] ==> k >= |Content(cs)| - 3)
  {
    hide Loaded, SplitObjects, StreamTexts, AllRestored, Countable, AllUnbraced, AllUnclosed, Hits, Objects, Content;
    var s := Content(cs);
    var some, all := SplitObjects(s[..k], 0, ""), SplitObjects(s, 0, "");
    ContentIs(cs);
    BeginningSplits(s, k, 0, "");
    BeginningLoads(some, all, resolve);
    AtMostHits(s, 0, "", resolve);
    assert "" + s == s;
    HitsContent(cs);
    RestoredCount(cs, resolve);
    assert Loaded(all, resolve) == AllRestored(cs, resolve);
    AllAreCountable(cs, "\n", resolve);
    StreamsSplit(cs, "\n");
    ObjectCount(cs, "\n");
    assert some == all;
    if cs != [] {
      StreamsFill(cs, "\n");
      PiecesFit(s[..k], 0, "");
    }
  }

  lemma {:induction false} ContentIs(cs: seq<PersistedConfig>)
    ensures Content(cs) == "\n" + StreamTexts(cs) + "\n  "
  {
  }

  lemma {:induction false} NothingIsBalanced()
    ensures Balanced(Content([]), '[', ']')
  {
    assert Content([]) == "\n" + "" + "\n  ";
    PlainIsBalanced(Content([]), '[', ']');
  }

  /** A list that loads as it was saved is loadable. */
  lemma {:induction false} LoadedAsSavedIsLoadable(cs: seq<PersistedConfig>, resolve: Option<string> -> string)
    requires AllUnclosed(cs) && FromJson(ToJson(cs), resolve) == Read(AllRestored(cs, resolve))
    ensures Loadable(cs)
  {
    hide ToJson, StreamsContent, SplitObjects, ConfigsFrom, Content, Unbraced, Countable, Balanced, AllUnclosed,
         PersistedConfig.IsValid, Loaded, AllRestored;
    if !AllUnbraced(cs) { BracedListIsLost(cs, resolve); }
    var t := StreamsContent(ToJson(cs)).value;
    ReadIsLoaded(SplitObjects(t, 0, ""), resolve);
    LoadedIsValid(SplitObjects(t, 0, ""), resolve);
    AllWereValid(cs, resolve);
    ContentIsBeginning(cs);
    WholeFromBeginning(cs, |t|, resolve);
    if cs == [] { NothingIsBalanced(); }
    ContentIsFound(cs);
  }

  /**
    The round trip of the file, exactly: among lists without a closing brace in an interface name, those
    that load as they were saved are the loadable ones.
   */
  lemma {:induction false} SavedStreamsLoadIff(cs: seq<PersistedConfig>, resolve: Option<string> -> string)
    requires AllUnclosed(cs)
    ensures FromJson(ToJson(cs), resolve) == Read(AllRestored(cs, resolve)) <==> Loadable(cs)
  {
    hide FromJson, ToJson, Loadable, AllUnclosed;
    if Loadable(cs) {
      SavedStreamsLoad(cs, resolve);
    } else if FromJson(ToJson(cs), resolve) == Read(AllRestored(cs, resolve)) {
      LoadedAsSavedIsLoadable(cs, resolve);
    }
  }
}
