/** The string handling the description and configuration code is written with: finding, splitting, trimming. */
module Text {
  import opened StreamTypes
  import opened Decimal

  // ---- finding ---------------------------------------------------------------------------------

  /** The first place of a character at or after `from`. */
  function Find(s: string, c: char, from: nat := 0): (r: Option<nat>)
    ensures r.Some? ==> from <= r.value < |s| && s[r.value] == c && forall k :: from <= k < r.value ==> s[k] != c
    ensures r.None? ==> forall k :: from <= k < |s| ==> s[k] != c
    decreases |s| - from
  {
    if from >= |s| then None else if s[from] == c then Some(from) else Find(s, c, from + 1)
  }

  function FindLast(s: string, c: char): (r: Option<nat>)
    ensures r.Some? ==> r.value < |s| && s[r.value] == c && forall k :: r.value < k < |s| ==> s[k] != c
    ensures r.None? ==> c !in s
  {
    if s == "" then None
    else if s[|s| - 1] == c then Some(|s| - 1)
    else FindLast(s[..|s| - 1], c)
  }

  lemma {:induction false} FindLastAt(a: string, c: char, b: string)
    requires c !in b
    ensures FindLast(a + [c] + b, c) == Some(|a|)
    decreases |b|
  {
    var s := a + [c] + b;
    if b == "" {
    } else {
      FindLastAt(a, c, b[..|b| - 1]);
      assert s[..|s| - 1] == a + [c] + b[..|b| - 1];
      assert s[|s| - 1] == b[|b| - 1];
    }
  }

  predicate OccursAt(s: string, pattern: string, i: nat) { i + |pattern| <= |s| && s[i..i + |pattern|] == pattern }

  function FindText(s: string, pattern: string, from: nat := 0): (r: Option<nat>)
    ensures r.Some? ==> from <= r.value && OccursAt(s, pattern, r.value) && forall k :: from <= k < r.value ==>
      !OccursAt(s, pattern, k)
    ensures r.None? ==> forall k :: from <= k ==> !OccursAt(s, pattern, k)
    decreases |s| - from
  {
    if OccursAt(s, pattern, from) then Some(from)
    else if from >= |s| then None
    else FindText(s, pattern, from + 1)
  }

  // ---- trimming --------------------------------------------------------------------------------

  function TrimRight(s: string): (r: string)
    ensures s != "" && !IsSpace(s[|s| - 1]) ==> r == s
  {
    if s != "" && IsSpace(s[|s| - 1]) then TrimRight(s[..|s| - 1]) else s
  }

  function Trim(s: string): string { TrimRight(DropSpaces(s)) }

  predicate Trimmed(s: string) { s == "" || (!IsSpace(s[0]) && !IsSpace(s[|s| - 1])) }

  lemma {:induction false} TrimKeepsTrimmed(s: string)
    requires Trimmed(s)
    ensures Trim(s) == s && Trim([' '] + s) == s
  {
  }

  // ---- splitting -------------------------------------------------------------------------------

  /** Pieces between delimiters the way repeated getline reads them: nothing after a final delimiter is no piece. */
  function Split(s: string, d: char): seq<string>
    decreases |s|
  {
    if s == "" then []
    else match Find(s, d)
      case None => [s]
      case Some(i) => [s[..i]] + Split(s[i + 1..], d)
  }

  function Mapped(f: string -> string, parts: seq<string>): (r: seq<string>)
    ensures |r| == |parts| && forall i :: 0 <= i < |r| ==> r[i] == f(parts[i])
  {
    if parts == [] then [] else [f(parts[0])] + Mapped(f, parts[1..])
  }

  function SplitTrimmed(s: string, d: char): seq<string> { Mapped(Trim, Split(s, d)) }

  function StripCr(line: string): string { if line != "" && line[|line| - 1] == '\r' then line[..|line| - 1] else line }

  function SplitLines(text: string): seq<string> { Mapped(StripCr, Split(text, '\n')) }

  /** The getline loop itself. */
  method SplitString(s: string, d: char) returns (parts: seq<string>)
    ensures parts == SplitTrimmed(s, d)
  {
    hide SplitTrimmed, Trim, Find;
    parts := [];
    var at := 0;
    assert s[at..] == s;
    while at < |s|
      invariant at <= |s|
      invariant parts + SplitTrimmed(s[at..], d) == SplitTrimmed(s, d)
    {
      var end := Find(s, d, at);
      var stop := if end.None? then |s| else end.value;
      GetLine(s, d, at, parts);
      parts := parts + [Trim(s[at..stop])];
      at := if end.None? then |s| else end.value + 1;
    }
    NothingLeft(s, d, at);
  }

  lemma {:induction false} NothingLeft(s: string, d: char, at: nat)
    requires at == |s|
    ensures SplitTrimmed(s[at..], d) == []
  {
  }

  /** One getline moves one piece from what is left to what was read. */
  lemma {:induction false} GetLine(s: string, d: char, at: nat, parts: seq<string>)
    requires at < |s|
    ensures var end := Find(s, d, at);
      parts + SplitTrimmed(s[at..], d)
      == if end.None? then parts + [Trim(s[at..|s|])] + SplitTrimmed(s[|s|..], d)
         else parts + [Trim(s[at..end.value])] + SplitTrimmed(s[end.value + 1..], d)
  {
    hide Find, Split, Trim;
    FindFrom(s, d, at);
    NothingLeft(s, d, |s|);
    var end := Find(s, d, at);
    if end.None? {
      assert s[at..] == s[at..|s|];
    } else {
      MappedStep(s[at..end.value], Split(s[end.value + 1..], d));
    }
  }

  lemma {:induction false} MappedStep(first: string, rest: seq<string>)
    ensures Mapped(Trim, [first] + rest) == [Trim(first)] + Mapped(Trim, rest)
  {
  }

  /** Searching from a place on is searching the rest. */
  lemma {:induction false} FindShift(s: string, d: char, at: nat, k: nat)
    requires at <= |s|
    ensures Find(s, d, at + k) == match Find(s[at..], d, k) case None => None case Some(i) => Some(at + i)
    decreases |s| - at - k
  {
  }

  lemma {:induction false} SplitOnce(s: string, d: char)
    requires s != ""
    ensures Split(s, d) == match Find(s, d) case None => [s] case Some(i) => [s[..i]] + Split(s[i + 1..], d)
  {
  }

  lemma {:induction false} FindFrom(s: string, d: char, at: nat)
    requires at < |s|
    ensures Find(s, d, at).None? ==> Split(s[at..], d) == [s[at..]]
    ensures Find(s, d, at).Some? ==>
      Split(s[at..], d) == [s[at..Find(s, d, at).value]] + Split(s[Find(s, d, at).value + 1..], d)
  {
    hide Find, Split;
    FindShift(s, d, at, 0);
    SplitOnce(s[at..], d);
    var end := Find(s, d, at);
    if end.Some? {
      var i := end.value - at;
      assert s[at..][..i] == s[at..end.value] && s[at..][i + 1..] == s[end.value + 1..];
    }
  }

  // ---- joining ---------------------------------------------------------------------------------

  function Joined(parts: seq<string>, d: char): string {
    if parts == [] then "" else if |parts| == 1 then parts[0] else parts[0] + [d] + Joined(parts[1..], d)
  }

  lemma {:induction false} SplitHead(a: string, d: char, rest: string)
    requires d !in a
    ensures Split(a + [d] + rest, d) == [a] + Split(rest, d)
    ensures Find(a + [d] + rest, d) == Some(|a|)
  {
    var s := a + [d] + rest;
    assert s[|a|] == d && forall k :: 0 <= k < |a| ==> s[k] == a[k];
    assert s[..|a|] == a && s[|a| + 1..] == rest;
  }

  lemma {:induction false} SplitLast(a: string, d: char)
    requires d !in a && a != ""
    ensures Split(a, d) == [a] && Find(a, d) == None
  {
  }

  /** Splitting undoes joining, except that an empty last part is not seen. */
  lemma {:induction false} SplitJoined(parts: seq<string>, d: char)
    requires parts != [] && forall i :: 0 <= i < |parts| ==> d !in parts[i]
    ensures Split(Joined(parts, d), d) == if parts[|parts| - 1] == "" then parts[..|parts| - 1] else parts
  {
    if |parts| == 1 {
      if parts[0] != "" { SplitLast(parts[0], d); }
    } else {
      hide Split;
      var rest := parts[1..];
      assert parts == [parts[0]] + rest && parts[..|parts| - 1] == [parts[0]] + rest[..|rest| - 1];
      SplitHead(parts[0], d, Joined(parts[1..], d));
      SplitJoined(parts[1..], d);
    }
  }

  lemma {:induction false} JoinedAvoids(parts: seq<string>, d: char, c: char)
    requires c != d && forall i :: 0 <= i < |parts| ==> c !in parts[i]
    ensures c !in Joined(parts, d)
  {
    if |parts| > 1 { JoinedAvoids(parts[1..], d, c); }
  }

  /** A word that survives splitting at spaces and trimming. */
  predicate Token(s: string) { s != "" && forall i :: 0 <= i < |s| ==> !IsSpace(s[i]) }

  lemma {:induction false} SplitTokens(parts: seq<string>, d: char)
    requires parts != [] && forall i :: 0 <= i < |parts| ==> d !in parts[i] && Token(parts[i])
    ensures SplitTrimmed(Joined(parts, d), d) == parts
  {
    SplitJoined(parts, d);
    forall i | 0 <= i < |parts|
      ensures Trim(parts[i]) == parts[i]
    {
      TrimKeepsTrimmed(parts[i]);
    }
  }

  // ---- lines -----------------------------------------------------------------------------------

  function Terminated(lines: seq<string>): string {
    if lines == [] then "" else lines[0] + ['\r'] + ['\n'] + Terminated(lines[1..])
  }

  /** Lines written with CR LF are read back as they were, whatever else is in them. */
  lemma {:induction false} LinesReadBack(lines: seq<string>)
    requires forall i :: 0 <= i < |lines| ==> '\n' !in lines[i]
    ensures SplitLines(Terminated(lines)) == lines
  {
    EndedWithCr(lines);
    EndedReadBack(lines, seq(|lines|, _ => true));
  }

  /** Lines some of which end with CR LF and some with a bare newline. */
  function Ended(lines: seq<string>, cr: seq<bool>): string
    requires |lines| == |cr|
  {
    if lines == [] then ""
    else lines[0] + (if cr[0] then ['\r'] else []) + ['\n'] + Ended(lines[1..], cr[1..])
  }

  lemma {:induction false} EndedWithCr(lines: seq<string>)
    ensures Terminated(lines) == Ended(lines, seq(|lines|, _ => true))
  {
    if lines == [] {
    } else {
      EndedWithCr(lines[1..]);
      assert seq(|lines|, _ => true)[1..] == seq(|lines[1..]|, _ => true);
    }
  }

  /** Both endings are read alike, except that a CR before a bare newline is taken for part of the ending. */
  lemma {:induction false} EndedReadBack(lines: seq<string>, cr: seq<bool>)
    requires |lines| == |cr| && forall i :: 0 <= i < |lines| ==> '\n' !in lines[i]
    requires forall i :: 0 <= i < |lines| && !cr[i] ==> lines[i] == "" || lines[i][|lines[i]| - 1] != '\r'
    ensures SplitLines(Ended(lines, cr)) == lines
  {
    if lines == [] {
    } else {
      EndedReadBack(lines[1..], cr[1..]);
      var first := lines[0] + if cr[0] then ['\r'] else [];
      var rest := Ended(lines[1..], cr[1..]);
      assert '\n' !in first;
      assert Ended(lines, cr) == first + ['\n'] + rest;
      SplitHead(first, '\n', rest);
      assert StripCr(first) == lines[0] by {
        if cr[0] { assert first[..|first| - 1] == lines[0]; } else { assert first == lines[0]; }
      }
      assert SplitLines(first + ['\n'] + rest) == [StripCr(first)] + SplitLines(rest);
    }
  }

  // ---- keys in map order -----------------------------------------------------------------------

  /** Lexicographic order, the one a map of strings is walked in. */
  predicate Precedes(a: string, b: string) {
    a == "" || (b != "" && (a[0] < b[0] || (a[0] == b[0] && Precedes(a[1..], b[1..]))))
  }

  lemma {:induction false} PrecedesIsTotal(a: string, b: string)
    ensures Precedes(a, b) || Precedes(b, a)
    ensures Precedes(a, b) && Precedes(b, a) ==> a == b
  {
    if a != "" && b != "" && a[0] == b[0] {
      PrecedesIsTotal(a[1..], b[1..]);
      assert a == [a[0]] + a[1..] && b == [b[0]] + b[1..];
    }
  }

  lemma {:induction false} PrecedesIsTransitive(a: string, b: string, c: string)
    requires Precedes(a, b) && Precedes(b, c)
    ensures Precedes(a, c)
  {
    if a != "" && a[0] == b[0] == c[0] { PrecedesIsTransitive(a[1..], b[1..], c[1..]); }
  }

  lemma {:induction false} FindFirst(keys: set<string>) returns (m: string)
    requires keys != {}
    ensures m in keys && forall k :: k in keys ==> Precedes(m, k)
  {
    m :| m in keys;
    var rest := keys - {m};
    PrecedesIsTotal(m, m);
    if rest != {} {
      var other := FindFirst(rest);
      PrecedesIsTotal(m, other);
      var first := if Precedes(m, other) then m else other;
      forall k | k in keys
        ensures Precedes(first, k)
      {
        if k != m && Precedes(m, other) { PrecedesIsTransitive(m, other, k); }
      }
      m := first;
    } else {
      assert keys == {m};
    }
  }

  lemma {:induction false} FirstExists(keys: set<string>)
    requires keys != {}
    ensures exists m :: m in keys && IsFirst(keys, m)
  {
    var m := FindFirst(keys);
    assert IsFirst(keys, m);
  }

  predicate IsFirst(keys: set<string>, m: string) { m in keys && forall k :: k in keys ==> Precedes(m, k) }

  lemma {:induction false} FirstIsUnique(keys: set<string>, a: string, b: string)
    requires IsFirst(keys, a) && IsFirst(keys, b)
    ensures a == b
  {
    PrecedesIsTotal(a, b);
  }

  lemma {:induction false} FirstsAgree(keys: set<string>)
    ensures forall a, b :: IsFirst(keys, a) && IsFirst(keys, b) ==> a == b
  {
    forall a, b | IsFirst(keys, a) && IsFirst(keys, b)
      ensures a == b
    {
      FirstIsUnique(keys, a, b);
    }
  }

  function First(keys: set<string>): (m: string)
    requires keys != {}
    ensures IsFirst(keys, m)
  {
    FirstExists(keys);
    FirstsAgree(keys);
    var m :| m in keys && IsFirst(keys, m);
    m
  }

  function SortedKeys(keys: set<string>): (r: seq<string>)
    ensures forall k :: k in r <==> k in keys
  {
    if keys == {} then [] else var m := First(keys); [m] + SortedKeys(keys - {m})
  }

  lemma {:induction false} SortedKeysAscend(keys: set<string>, i: nat, j: nat)
    requires i < j < |SortedKeys(keys)|
    ensures Precedes(SortedKeys(keys)[i], SortedKeys(keys)[j]) && SortedKeys(keys)[i] != SortedKeys(keys)[j]
  {
    var m := First(keys);
    var rest := SortedKeys(keys - {m});
    assert rest[j - 1] in rest;
    if i > 0 { SortedKeysAscend(keys - {m}, i - 1, j - 1); }
  }
}
