/** The {{path}} templates of action parameters: what the replacement of a global pattern computes,
    scanning position by position, and what inserting a token at a cursor does to the result. */
module Template {
  import opened JsText
  import opened Options

  /** A value of the trigger context; text is its string conversion. */
  datatype Value =
    | Undefined
    | Null
    | Text(text: string)
    | Other(text: string)
    | Obj(fields: map<string, Value>, text: string)

  type Context = map<string, Value>

  // ---------------------------------------------------------------- paths

  /** String.prototype.split with ".", section 22.1.3.23 of ECMA-262. */
  function Split(s: string): (r: seq<string>)
    ensures |r| >= 1
  {
    if s == "" then [""]
    else
      var rest := Split(s[1..]);
      if s[0] == '.' then [""] + rest else [[s[0]] + rest[0]] + rest[1..]
  }

  function Join(parts: seq<string>): string
    requires |parts| >= 1
  {
    if |parts| == 1 then parts[0] else parts[0] + "." + Join(parts[1..])
  }

  /** The parts have no dot, and joined by dots they are the text. */
  lemma {:induction false} SplitJoins(s: string)
    ensures Join(Split(s)) == s
    ensures forall k :: 0 <= k < |Split(s)| ==> '.' !in Split(s)[k]
    decreases |s|
  {
    if s != "" {
      SplitJoins(s[1..]);
      var rest := Split(s[1..]);
      if s[0] == '.' {
        assert ([""] + rest)[1..] == rest;
      } else {
        assert ([[s[0]] + rest[0]] + rest[1..])[1..] == rest[1..];
      }
    }
  }

  function Lookup(v: Value, key: string): Value {
    if v.Obj? && key in v.fields then v.fields[key] else Undefined
  }

  function Walk(v: Value, keys: seq<string>): Value
    decreases |keys|
  {
    if keys == [] then v else Walk(Lookup(v, keys[0]), keys[1..])
  }

  function ResolvePath(path: string, ctx: Context): Value {
    Walk(Obj(ctx, "[object Object]"), Split(path))
  }

  lemma {:induction false} WalkOn(v: Value, keys: seq<string>, more: seq<string>)
    ensures Walk(v, keys + more) == Walk(Walk(v, keys), more)
    decreases |keys|
  {
    if keys == [] {
      assert keys + more == more;
    } else {
      assert (keys + more)[1..] == keys[1..] + more;
      WalkOn(Lookup(v, keys[0]), keys[1..], more);
    }
  }

  lemma {:induction false} SplitAppend(a: string, b: string)
    ensures Split(a + "." + b) == Split(a) + Split(b)
    decreases |a|
  {
    if a == "" {
      assert a + "." + b == "." + b;
      assert ("." + b)[1..] == b;
    } else {
      assert (a + "." + b)[1..] == a[1..] + "." + b;
      SplitAppend(a[1..], b);
    }
  }

  /** A longer path continues from where the shorter one leads. */
  lemma PathComposes(a: string, b: string, ctx: Context)
    ensures ResolvePath(a + "." + b, ctx) == Walk(ResolvePath(a, ctx), Split(b))
  {
    SplitAppend(a, b);
    WalkOn(Obj(ctx, "[object Object]"), Split(a), Split(b));
  }

  // ---------------------------------------------------------------- one match

  predicate NoClose(s: string, i: int, j: int)
    requires 0 <= i && j <= |s|
  {
    forall k :: i <= k < j ==> s[k] != '}'
  }

  predicate OpensAt(s: string, i: int) {
    0 <= i && i + 2 <= |s| && s[i] == '{' && s[i + 1] == '{'
  }

  predicate ClosesAt(s: string, i: int) {
    0 <= i && i + 2 <= |s| && s[i] == '}' && s[i + 1] == '}'
  }

  /** The pattern: two opening braces, one or more characters that are not a closing brace, and two
      closing braces. */
  predicate IsMatch(s: string, i: int, e: int) {
    OpensAt(s, i) && i + 5 <= e && ClosesAt(s, e - 2) && NoClose(s, i + 2, e - 2)
  }

  lemma MatchIsUnique(s: string, i: int, e: int, e': int)
    requires IsMatch(s, i, e) && IsMatch(s, i, e')
    ensures e == e'
  {
  }

  function CloseFrom(s: string, i: nat): (r: nat)
    requires i <= |s|
    ensures i <= r <= |s| && NoClose(s, i, r) && (r < |s| ==> s[r] == '}')
    decreases |s| - i
  {
    if i == |s| || s[i] == '}' then i else CloseFrom(s, i + 1)
  }

  /** The greedy matcher, tried at one position. */
  function MatchEnd(s: string, i: nat): (r: Option<nat>)
    ensures r.Some? ==> IsMatch(s, i, r.value)
    ensures r == None ==> forall e :: !IsMatch(s, i, e)
  {
    if !OpensAt(s, i) then None
    else
      var r := CloseFrom(s, i + 2);
      if r > i + 2 && ClosesAt(s, r) then Some(r + 2)
      else
        assert forall e :: IsMatch(s, i, e) ==> e - 2 == r;
        None
  }

  lemma MatchEndIff(s: string, i: nat, e: nat)
    ensures MatchEnd(s, i) == Some(e) <==> IsMatch(s, i, e)
  {
  }

  // ---------------------------------------------------------------- replacement

  /** What a match is replaced by; a blank path leaves it as it is. */
  function Replacement(m: string, ctx: Context): string
    requires |m| >= 4
  {
    var path := Trim(m[2..|m| - 2]);
    if path == "" then m
    else
      match ResolvePath(path, ctx)
      case Undefined => ""
      case Null => ""
      case v => v.text
  }

  function ResolveFrom(s: string, i: nat, ctx: Context): string
    requires i <= |s|
    decreases |s| - i
  {
    if i == |s| then ""
    else
      match MatchEnd(s, i)
      case Some(e) => Replacement(s[i..e], ctx) + ResolveFrom(s, e, ctx)
      case None => [s[i]] + ResolveFrom(s, i + 1, ctx)
  }

  lemma Unfold(s: string, i: nat, ctx: Context)
    requires i < |s|
    ensures match MatchEnd(s, i)
      case Some(e) => i + 5 <= e <= |s| && ResolveFrom(s, i, ctx) == Replacement(s[i..e], ctx) + ResolveFrom(s, e, ctx)
      case None => ResolveFrom(s, i, ctx) == [s[i]] + ResolveFrom(s, i + 1, ctx)
  {
  }

  function ResolveTemplate(template: string, ctx: Context): string {
    ResolveFrom(template, 0, ctx)
  }

  method ResolveParams(params: seq<(string, Value)>, ctx: Context) returns (result: map<string, Value>)
    requires forall i, j :: 0 <= i < j < |params| ==> params[i].0 != params[j].0
    ensures forall key :: key in result <==> exists i :: 0 <= i < |params| && params[i].0 == key
    ensures forall i :: 0 <= i < |params| && params[i].1.Text? ==>
              params[i].0 in result && result[params[i].0] == Text(ResolveTemplate(params[i].1.text, ctx))
    ensures forall i :: 0 <= i < |params| && !params[i].1.Text? ==>
              params[i].0 in result && result[params[i].0] == params[i].1
  {
    hide ResolveTemplate;
    result := map[];
    for n := 0 to |params|
      invariant forall key :: key in result <==> exists i :: 0 <= i < n && params[i].0 == key
      invariant forall i :: 0 <= i < n && params[i].1.Text? ==>
                  params[i].0 in result && result[params[i].0] == Text(ResolveTemplate(params[i].1.text, ctx))
      invariant forall i :: 0 <= i < n && !params[i].1.Text? ==>
                  params[i].0 in result && result[params[i].0] == params[i].1
    {
      var value := params[n].1;
      result := result[params[n].0 := if value.Text? then Text(ResolveTemplate(value.text, ctx)) else value];
    }
  }

  // ---------------------------------------------------------------- the specification

  datatype Match = Match(start: nat, end: nat)

  /** The matches a global replacement takes from position i on: in order, without overlap, and
      leftmost, so that no match starts between them. */
  ghost predicate IsScan(s: string, i: nat, ms: seq<Match>)
    decreases |ms|
  {
    if ms == [] then
      i <= |s| && forall j, e :: i <= j ==> !IsMatch(s, j, e)
    else
      && i <= ms[0].start && IsMatch(s, ms[0].start, ms[0].end)
      && (forall j, e :: i <= j < ms[0].start ==> !IsMatch(s, j, e))
      && IsScan(s, ms[0].end, ms[1..])
  }

  /** The text with each match replaced, its value inserted as it is, and the rest unchanged. */
  ghost function Splice(s: string, i: nat, ms: seq<Match>, ctx: Context): string
    requires IsScan(s, i, ms) && i <= |s|
    decreases |ms|
  {
    if ms == [] then s[i..]
    else
      s[i..ms[0].start] + Replacement(s[ms[0].start..ms[0].end], ctx) + Splice(s, ms[0].end, ms[1..], ctx)
  }

  /** The scanner computes the replacement of the leftmost non-overlapping matches. */
  lemma {:induction false} ResolvesTheScan(s: string, i: nat, ms: seq<Match>, ctx: Context)
    requires IsScan(s, i, ms) && i <= |s|
    ensures ResolveFrom(s, i, ctx) == Splice(s, i, ms, ctx)
    decreases |s| - i
  {
    hide *;
    if i == |s| {
      EndResolves(s, ctx);
      SpliceEnd(s, ms, ctx);
    } else if ms != [] && ms[0].start == i {
      Unfold(s, i, ctx);
      SpliceMatch(s, i, ms, ctx);
      ResolvesTheScan(s, ms[0].end, ms[1..], ctx);
    } else {
      Unfold(s, i, ctx);
      LaterScan(s, i, ms);
      SpliceStep(s, i, ms, ctx);
      ResolvesTheScan(s, i + 1, ms, ctx);
    }
  }

  lemma EndResolves(s: string, ctx: Context)
    ensures ResolveFrom(s, |s|, ctx) == ""
  {
  }

  lemma SpliceEnd(s: string, ms: seq<Match>, ctx: Context)
    requires IsScan(s, |s|, ms)
    ensures Splice(s, |s|, ms, ctx) == ""
  {
  }

  lemma SpliceUnfolds(s: string, i: nat, ms: seq<Match>, ctx: Context)
    requires IsScan(s, i, ms) && ms != [] && i <= |s|
    ensures i <= ms[0].start && ms[0].start + 5 <= ms[0].end <= |s| && IsMatch(s, ms[0].start, ms[0].end)
    ensures IsScan(s, ms[0].end, ms[1..])
    ensures (Splice(s, i, ms, ctx) ==
             s[i..ms[0].start] + Replacement(s[ms[0].start..ms[0].end], ctx) + Splice(s, ms[0].end, ms[1..], ctx))
  {
  }

  lemma SpliceNothing(s: string, i: nat, ctx: Context)
    requires IsScan(s, i, []) && i <= |s|
    ensures Splice(s, i, [], ctx) == s[i..]
  {
  }

  lemma SpliceMatch(s: string, i: nat, ms: seq<Match>, ctx: Context)
    requires IsScan(s, i, ms) && ms != [] && ms[0].start == i && i <= |s|
    ensures MatchEnd(s, i) == Some(ms[0].end) && i + 5 <= ms[0].end <= |s|
    ensures IsScan(s, ms[0].end, ms[1..])
    ensures Splice(s, i, ms, ctx) == Replacement(s[i..ms[0].end], ctx) + Splice(s, ms[0].end, ms[1..], ctx)
  {
    hide *;
    SpliceUnfolds(s, i, ms, ctx);
    MatchEndIff(s, i, ms[0].end);
    assert s[i..i] == "";
  }

  lemma SpliceStep(s: string, i: nat, ms: seq<Match>, ctx: Context)
    requires IsScan(s, i, ms) && IsScan(s, i + 1, ms) && i < |s|
    ensures Splice(s, i, ms, ctx) == [s[i]] + Splice(s, i + 1, ms, ctx)
  {
    hide *;
    if ms == [] {
      SpliceNothing(s, i, ctx);
      SpliceNothing(s, i + 1, ctx);
      assert s[i..] == [s[i]] + s[i + 1..];
    } else {
      SpliceUnfolds(s, i, ms, ctx);
      SpliceUnfolds(s, i + 1, ms, ctx);
      assert s[i..ms[0].start] == [s[i]] + s[i + 1..ms[0].start];
    }
  }

  lemma LaterScan(s: string, i: nat, ms: seq<Match>)
    requires IsScan(s, i, ms) && i < |s| && (ms == [] || ms[0].start != i)
    ensures IsScan(s, i + 1, ms) && MatchEnd(s, i) == None
  {
  }

  /** There is one such list of matches, and only one. */
  lemma {:induction false} ScanExists(s: string, i: nat) returns (ms: seq<Match>)
    requires i <= |s|
    ensures IsScan(s, i, ms)
    decreases |s| - i
  {
    if i == |s| {
      ms := [];
    } else {
      match MatchEnd(s, i)
      case Some(e) =>
        var rest := ScanExists(s, e);
        ms := [Match(i, e)] + rest;
        assert ms[1..] == rest;
      case None =>
        ms := ScanExists(s, i + 1);
        EarlierScan(s, i, ms);
    }
  }

  lemma EarlierScan(s: string, i: nat, ms: seq<Match>)
    requires i < |s| && IsScan(s, i + 1, ms) && MatchEnd(s, i) == None
    ensures IsScan(s, i, ms)
  {
  }

  lemma {:induction false} ScanIsUnique(s: string, i: nat, ms: seq<Match>, ms': seq<Match>)
    requires IsScan(s, i, ms) && IsScan(s, i, ms')
    ensures ms == ms'
    decreases |ms|
  {
    if ms != [] {
      assert ms' != [];
      assert ms[0].start == ms'[0].start;
      MatchIsUnique(s, ms[0].start, ms[0].end, ms'[0].end);
      ScanIsUnique(s, ms[0].end, ms[1..], ms'[1..]);
      assert ms == [ms[0]] + ms[1..] && ms' == [ms'[0]] + ms'[1..];
    }
  }

  /** Text without an opening pair is left as it is. */
  lemma PlainTextUnchanged(s: string, ctx: Context)
    requires !Occurs(s, "{{")
    ensures ResolveTemplate(s, ctx) == s
  {
    forall j, e | IsMatch(s, j, e) ensures false {
      assert s[j..j + 2] == "{{";
      assert OccursAt(s, "{{", j);
    }
    ResolvesTheScan(s, 0, [], ctx);
  }

  // ---------------------------------------------------------------- splicing a token

  lemma {:induction false} Shift(p: string, q: string, i: nat, ctx: Context)
    requires i <= |q|
    ensures ResolveFrom(p + q, |p| + i, ctx) == ResolveFrom(q, i, ctx)
    decreases |q| - i
  {
    hide *;
    if i == |q| {
      EndResolves(q, ctx);
      EndResolves(p + q, ctx);
    } else {
      MatchShifts(p, q, i);
      Unfold(q, i, ctx);
      Unfold(p + q, |p| + i, ctx);
      match MatchEnd(q, i)
      case Some(e) =>
        Shift(p, q, e, ctx);
        assert (p + q)[|p| + i..|p| + e] == q[i..e];
      case None =>
        Shift(p, q, i + 1, ctx);
    }
  }

  lemma MatchShifts(p: string, q: string, i: nat)
    ensures MatchEnd(p + q, |p| + i) == (match MatchEnd(q, i) case Some(e) => Some(|p| + e) case None => None)
  {
    var s := p + q;
    assert forall k :: 0 <= k < |q| ==> s[|p| + k] == q[k];
    match MatchEnd(q, i)
    case Some(e) =>
      forall k | |p| + i + 2 <= k < |p| + e - 2 ensures s[k] != '}' {
        assert s[k] == q[k - |p|];
      }
      MatchEndIff(s, |p| + i, |p| + e);
    case None =>
      if MatchEnd(s, |p| + i).Some? {
        MatchShiftsBack(p, q, i, MatchEnd(s, |p| + i).value);
      }
  }

  lemma MatchShiftsBack(p: string, q: string, i: nat, e: nat)
    requires IsMatch(p + q, |p| + i, e)
    ensures IsMatch(q, i, e - |p|)
  {
    assert forall k :: i <= k < |q| ==> q[k] == (p + q)[|p| + k];
  }

  /** No match that starts in p reaches into what follows. */
  ghost predicate Separate(p: string, r: string) {
    forall j, e :: 0 <= j < |p| && IsMatch(p + r, j, e) ==> e <= |p|
  }

  lemma MatchBefore(p: string, r: string, j: nat)
    requires Separate(p, r) && j < |p|
    ensures MatchEnd(p + r, j) == MatchEnd(p, j)
  {
    var s := p + r;
    assert forall k :: 0 <= k < |p| ==> s[k] == p[k];
    match MatchEnd(p, j)
    case Some(e) =>
      assert NoClose(s, j + 2, e - 2);
      MatchEndIff(s, j, e);
    case None =>
      forall e ensures !IsMatch(s, j, e) {
        if IsMatch(s, j, e) {
          assert IsMatch(p, j, e);
        }
      }
  }

  lemma {:induction false} ResolveSeparate(p: string, r: string, i: nat, ctx: Context)
    requires Separate(p, r) && i <= |p|
    ensures ResolveFrom(p + r, i, ctx) == ResolveFrom(p, i, ctx) + ResolveFrom(r, 0, ctx)
    decreases |p| - i
  {
    hide *;
    if i == |p| {
      Shift(p, r, 0, ctx);
      EndResolves(p, ctx);
    } else {
      MatchBefore(p, r, i);
      Unfold(p, i, ctx);
      Unfold(p + r, i, ctx);
      match MatchEnd(p, i)
      case Some(e) =>
        ResolveSeparate(p, r, e, ctx);
        assert (p + r)[i..e] == p[i..e];
      case None =>
        ResolveSeparate(p, r, i + 1, ctx);
    }
  }

  /** What follows the last closing brace. */
  function Tail(p: string): (r: string)
    ensures |r| <= |p| && r == p[|p| - |r|..] && '}' !in r
    ensures |r| < |p| ==> p[|p| - |r| - 1] == '}'
  {
    if p == "" || p[|p| - 1] == '}' then ""
    else
      var n := |p| - 1;
      Tail(p[..n]) + [p[n]]
  }

  /** A prefix that leaves nothing open: the editor could check it before inserting. */
  predicate Clean(p: string) {
    !Includes(Tail(p), "{{") && (Tail(p) == "" || Tail(p)[|Tail(p)| - 1] != '{')
  }

  /** A match would start here if a token followed. */
  predicate LeftOpenAt(p: string, j: int) {
    0 <= j < |p| && p[j] == '{' && (j + 1 == |p| || p[j + 1] == '{') && NoClose(p, j, |p|)
  }

  lemma CleanIff(p: string)
    ensures Clean(p) <==> forall j :: !LeftOpenAt(p, j)
  {
    hide LeftOpenAt, Clean, Tail;
    if !Clean(p) {
      var j := UncleanIsOpen(p);
      assert LeftOpenAt(p, j);
    }
    forall j | LeftOpenAt(p, j) ensures !Clean(p) {
      LeftOpenInTail(p, j);
    }
  }

  lemma UncleanIsOpen(p: string) returns (j: int)
    requires !Clean(p)
    ensures LeftOpenAt(p, j)
  {
    hide Tail, NoClose;
    if Includes(Tail(p), "{{") {
      var k :| OccursAt(Tail(p), "{{", k);
      j := PairIsOpen(p, k);
    } else {
      j := |p| - 1;
      TailIsOpen(p, j);
      assert Tail(p)[|Tail(p)| - 1] == p[j];
    }
  }

  lemma PairIsOpen(p: string, k: int) returns (j: int)
    requires OccursAt(Tail(p), "{{", k)
    ensures LeftOpenAt(p, j)
  {
    hide Tail, NoClose;
    j := |p| - |Tail(p)| + k;
    TailIsOpen(p, j);
    PairAt(Tail(p), k);
    assert p[j] == Tail(p)[k] && p[j + 1] == Tail(p)[k + 1];
  }

  lemma PairAt(s: string, k: int)
    requires OccursAt(s, "{{", k)
    ensures 0 <= k && k + 2 <= |s| && s[k] == '{' && s[k + 1] == '{'
  {
    assert s[k..k + 2][0] == '{' && s[k..k + 2][1] == '{';
  }

  lemma TailIsOpen(p: string, j: int)
    requires |p| - |Tail(p)| <= j <= |p|
    ensures NoClose(p, j, |p|)
  {
  }

  lemma LeftOpenInTail(p: string, j: int)
    requires LeftOpenAt(p, j)
    ensures !Clean(p)
  {
    hide *;
    var i := PlaceInTail(p, j);
    if i + 1 < |Tail(p)| {
      PairIsUnclean(p, i);
    } else {
      LastIsUnclean(p, i);
    }
  }

  /** After an open position there is no closing brace, so it is in the tail. */
  lemma PlaceInTail(p: string, j: int) returns (i: nat)
    requires LeftOpenAt(p, j)
    ensures i < |Tail(p)| && Tail(p)[i] == '{' && (i + 1 < |Tail(p)| ==> Tail(p)[i + 1] == '{')
  {
    TailHolds(p, j);
    hide *;
    i := j - (|p| - |Tail(p)|);
    assert Tail(p)[i] == p[j];
    OpenIsPair(p, j);
    if i + 1 < |Tail(p)| {
      assert Tail(p)[i + 1] == p[j + 1];
    }
  }

  lemma TailHolds(p: string, j: int)
    requires LeftOpenAt(p, j)
    ensures |p| - |Tail(p)| <= j < |p|
  {
    hide Tail;
    var from := |p| - |Tail(p)|;
    assert from > 0 ==> p[from - 1] == '}';
  }

  lemma OpenIsPair(p: string, j: int)
    requires LeftOpenAt(p, j)
    ensures 0 <= j < |p| && p[j] == '{' && (j + 1 < |p| ==> p[j + 1] == '{')
  {
  }

  lemma PairIsUnclean(p: string, i: nat)
    requires i + 1 < |Tail(p)| && Tail(p)[i] == '{' && Tail(p)[i + 1] == '{'
    ensures !Clean(p)
  {
    hide Tail, OccursAt;
    PairOccurs(Tail(p), i);
  }

  lemma PairOccurs(s: string, i: nat)
    requires i + 1 < |s| && s[i] == '{' && s[i + 1] == '{'
    ensures OccursAt(s, "{{", i)
  {
    assert s[i..i + 2] == "{{";
  }

  lemma LastIsUnclean(p: string, i: nat)
    requires i + 1 == |Tail(p)| && Tail(p)[i] == '{'
    ensures !Clean(p)
  {
    hide Tail;
  }

  /** A whole match whose path is not blank. */
  predicate IsToken(t: string) {
    IsMatch(t, 0, |t|) && !Blank(t[2..|t| - 2])
  }

  lemma CleanSeparates(p: string, r: string)
    requires Clean(p) && OpensAt(r, 0)
    ensures Separate(p, r)
  {
    CleanIff(p);
    var s := p + r;
    forall j, e | 0 <= j < |p| && IsMatch(s, j, e) ensures e <= |p| {
      if e > |p| {
        CrossingIsOpen(p, r, j, e);
      }
    }
  }

  lemma CrossingIsOpen(p: string, r: string, j: int, e: int)
    requires OpensAt(r, 0) && 0 <= j < |p| < e && IsMatch(p + r, j, e)
    ensures LeftOpenAt(p, j)
  {
    var s := p + r;
    assert forall k :: 0 <= k < |p| ==> s[k] == p[k];
    assert s[|p|] == '{';
    assert e - 1 != |p|;
    assert forall k :: j <= k < |p| ==> p[k] == s[k] && s[k] != '}';
  }

  lemma TokenResolves(t: string, q: string, ctx: Context)
    requires IsToken(t)
    ensures ResolveTemplate(t + q, ctx) == Replacement(t, ctx) + ResolveTemplate(q, ctx)
  {
    hide ResolveFrom, Replacement, MatchEnd, IsToken;
    TokenMatches(t, q);
    Unfold(t + q, 0, ctx);
    Shift(t, q, 0, ctx);
    assert (t + q)[0..|t|] == t;
  }

  lemma TokenMatches(t: string, q: string)
    requires IsToken(t)
    ensures MatchEnd(t + q, 0) == Some(|t|) && |t| >= 5 && OpensAt(t + q, 0)
  {
    assert forall k :: 0 <= k < |t| ==> (t + q)[k] == t[k];
    MatchEndIff(t + q, 0, |t|);
  }

  /** A token after a clean prefix resolves to its value, and changes nothing around it. */
  lemma SpliceToken(p: string, t: string, q: string, ctx: Context)
    requires IsToken(t) && Clean(p)
    ensures ResolveTemplate(p + t + q, ctx) == ResolveTemplate(p, ctx) + Replacement(t, ctx) + ResolveTemplate(q, ctx)
  {
    hide ResolveFrom, Replacement, Clean, IsToken, OpensAt, MatchEnd, Separate;
    TokenMatches(t, q);
    CleanSeparates(p, t + q);
    ResolveSeparate(p, t + q, 0, ctx);
    TokenResolves(t, q, ctx);
    assert p + t + q == p + (t + q);
  }

  lemma NoCloseSeparates(a: string, b: string)
    requires '}' !in b
    ensures Separate(a, b)
  {
  }

  lemma NoCloseUnchanged(b: string, ctx: Context)
    requires '}' !in b
    ensures ResolveTemplate(b, ctx) == b
  {
    assert IsScan(b, 0, []);
    ResolvesTheScan(b, 0, [], ctx);
    SpliceNothing(b, 0, ctx);
    assert b[0..] == b;
  }

  lemma NoCloseAppends(a: string, b: string, ctx: Context)
    requires '}' !in b
    ensures ResolveTemplate(a + b, ctx) == ResolveTemplate(a, ctx) + b
  {
    hide ResolveFrom, Separate;
    NoCloseSeparates(a, b);
    ResolveSeparate(a, b, 0, ctx);
    NoCloseUnchanged(b, ctx);
  }

  lemma {:induction false} WalkUndefined(keys: seq<string>)
    ensures Walk(Undefined, keys) == Undefined
    decreases |keys|
  {
    if keys != [] {
      WalkUndefined(keys[1..]);
    }
  }

  lemma EmptyContext(path: string)
    ensures ResolvePath(path, map[]) == Undefined
  {
    var keys := Split(path);
    hide Split;
    assert Walk(Obj(map[], "[object Object]"), keys) == Walk(Undefined, keys[1..]);
    WalkUndefined(keys[1..]);
  }

  lemma NothingInEmptyContext(t: string)
    requires IsToken(t)
    ensures |t| >= 4 && Replacement(t, map[]) == ""
  {
    hide Trim, ResolvePath, Blank;
    TrimIsEmptyIffBlank(t[2..|t| - 2]);
    EmptyContext(Trim(t[2..|t| - 2]));
  }

  lemma {:induction false} FirstLeftOpen(p: string, j: int) returns (i: int)
    requires LeftOpenAt(p, j)
    ensures LeftOpenAt(p, i) && Clean(p[..i])
    decreases j
  {
    if k :| 0 <= k < j && LeftOpenAt(p, k) {
      i := FirstLeftOpen(p, k);
    } else {
      i := j;
      forall k ensures !LeftOpenAt(p[..j], k) {
        if LeftOpenAt(p[..j], k) {
          LeftOpenStays(p, j, k);
        }
      }
      CleanIff(p[..j]);
    }
  }

  lemma LeftOpenStays(p: string, j: int, k: int)
    requires LeftOpenAt(p, j) && LeftOpenAt(p[..j], k)
    ensures k < j && LeftOpenAt(p, k)
  {
  }

  lemma WiderToken(p: string, j: int, t: string)
    requires LeftOpenAt(p, j) && IsToken(t)
    ensures IsToken(p[j..] + t)
  {
    hide IsMatch, LeftOpenAt, NoClose;
    WiderMatch(p, j, t);
    var u := p[j..] + t;
    assert !IsSpace('{');
    assert u[2..|u| - 2][WiderBrace(p, j, t)] == '{';
  }

  lemma WiderMatch(p: string, j: int, t: string)
    requires LeftOpenAt(p, j) && IsMatch(t, 0, |t|)
    ensures 0 <= j < |p| && IsMatch(p[j..] + t, 0, |p| - j + |t|) && OpensAt(t, 0) && |t| >= 5
  {
  }

  /** Where the token's own brace lies in the longer path. */
  function WiderBrace(p: string, j: int, t: string): (k: nat)
    requires 0 <= j < |p| && OpensAt(t, 0) && |t| >= 5
    ensures k + 4 < |p| - j + |t| && (p[j..] + t)[2..|p| - j + |t| - 2][k] == '{'
  {
    var n := |p| - j;
    if n == 1 then
      assert (p[j..] + t)[2] == t[1];
      0
    else
      assert (p[j..] + t)[n] == t[0];
      n - 2
  }

  /** When something is left open, the token becomes part of a longer path, and with an empty context
      the result is not the one the editor shows. */
  lemma UncleanFails(p: string, t: string, q: string)
    requires IsToken(t) && !Clean(p)
    ensures (ResolveTemplate(p + t + q, map[])
             != ResolveTemplate(p, map[]) + Replacement(t, map[]) + ResolveTemplate(q, map[]))
  {
    hide ResolveTemplate, Replacement, Clean, IsToken, LeftOpenAt;
    var j := UncleanIsOpen(p);
    var i := FirstLeftOpen(p, j);
    LeftOpenHasTail(p, i);
    var a, b := p[..i], p[i..];
    assert p == a + b;
    WiderToken(p, i, t);
    SpliceToken(a, b + t, q, map[]);
    NothingInEmptyContext(b + t);
    NothingInEmptyContext(t);
    NoCloseAppends(a, b, map[]);
    assert p + t + q == a + (b + t) + q;
  }

  lemma LeftOpenHasTail(p: string, j: int)
    requires LeftOpenAt(p, j)
    ensures 0 <= j < |p| && '}' !in p[j..]
  {
  }

  // ---------------------------------------------------------------- the picker

  /** slice(0, n) and slice(n), section 22.1.3.22: positions beyond the end are the end. */
  function Clamp(n: nat, max: nat): nat {
    if n < max then n else max
  }

  /** What the editor does with a picked variable: replace the selection, or append without one. */
  function Insert(value: string, start: Option<nat>, end: Option<nat>, variable: string): string {
    match start
    case None => value + variable
    case Some(s) =>
      var e := match end case None => s case Some(e) => e;
      value[..Clamp(s, |value|)] + variable + value[Clamp(e, |value|)..]
  }

  function Before(value: string, start: Option<nat>): string {
    if start.Some? then value[..Clamp(start.value, |value|)] else value
  }

  function After(value: string, start: Option<nat>, end: Option<nat>): string {
    if start == None then ""
    else value[Clamp(if end.Some? then end.value else start.value, |value|)..]
  }

  /** The inserted token stands for its value, and the text around it means what it meant alone. */
  ghost predicate InsertsValue(value: string, start: Option<nat>, end: Option<nat>, t: string, ctx: Context)
    requires |t| >= 4
  {
    ResolveTemplate(Insert(value, start, end, t), ctx) ==
    ResolveTemplate(Before(value, start), ctx) + Replacement(t, ctx) + ResolveTemplate(After(value, start, end), ctx)
  }

  /** Inserting a token works in every context if and only if the text before it leaves nothing open. */
  lemma InsertionIff(value: string, start: Option<nat>, end: Option<nat>, t: string)
    requires IsToken(t) && |t| >= 4
    ensures Clean(Before(value, start)) <==> forall ctx :: InsertsValue(value, start, end, t, ctx)
  {
    hide ResolveTemplate, Replacement, IsToken, Clean;
    var p, q := Before(value, start), After(value, start, end);
    assert Insert(value, start, end, t) == p + t + q;
    if Clean(p) {
      forall ctx ensures InsertsValue(value, start, end, t, ctx) {
        SpliceToken(p, t, q, ctx);
      }
    } else {
      UncleanFails(p, t, q);
      assert !InsertsValue(value, start, end, t, map[]);
    }
  }

  function Token(objectKey: string, field: string): string {
    "{{" + objectKey + "." + field + "}}"
  }

  predicate IsName(s: string) {
    s != "" && '.' !in s && '}' !in s && !IsSpace(s[0]) && !IsSpace(s[|s| - 1])
  }

  lemma TokenIsToken(objectKey: string, field: string)
    requires IsName(objectKey) && IsName(field)
    ensures var t := Token(objectKey, field); IsToken(t) && |t| >= 7 && t[2..|t| - 2] == objectKey + "." + field
  {
    var t := Token(objectKey, field);
    var path := objectKey + "." + field;
    assert t == "{{" + path + "}}";
    assert t[2..|t| - 2] == path;
    PathHasNoClose(objectKey, field);
    forall k | 2 <= k < |t| - 2 ensures t[k] != '}' {
      assert t[k] == path[k - 2] && path[k - 2] in path;
    }
    assert path[0] == objectKey[0];
  }

  lemma PathHasNoClose(a: string, b: string)
    requires '}' !in a && '}' !in b
    ensures '}' !in a + "." + b
  {
  }

  lemma {:induction false} SplitName(s: string)
    requires '.' !in s
    ensures Split(s) == [s]
    decreases |s|
  {
    if s != "" {
      SplitName(s[1..]);
      assert [s[0]] + s[1..] == s;
    }
  }

  lemma TrimKeeps(s: string)
    requires s != "" && !IsSpace(s[0]) && !IsSpace(s[|s| - 1])
    ensures Trim(s) == s
  {
  }

  /** A picked token stands for the field of the object. */
  lemma PickedValue(objectKey: string, field: string, ctx: Context)
    requires IsName(objectKey) && IsName(field)
    ensures var v := if objectKey in ctx then Lookup(ctx[objectKey], field) else Undefined;
            |Token(objectKey, field)| >= 4 &&
            Replacement(Token(objectKey, field), ctx) == (if v.Undefined? || v.Null? then "" else v.text)
  {
    hide Trim, Split, IsToken;
    var path := objectKey + "." + field;
    TokenIsToken(objectKey, field);
    TrimKeeps(path);
    PathComposes(objectKey, field, ctx);
    SplitName(objectKey);
    SplitName(field);
    var root := Obj(ctx, "[object Object]");
    assert Walk(root, [objectKey]) == Lookup(root, objectKey) by {
      assert [objectKey][1..] == [];
    }
    assert forall v :: Walk(v, [field]) == Lookup(v, field) by {
      assert [field][1..] == [];
    }
  }

  // ---------------------------------------------------------------- what a match stands for

  /** A text without white space at its ends. */
  predicate IsCore(s: string) {
    s != "" && !IsSpace(s[0]) && !IsSpace(s[|s| - 1])
  }

  lemma {:induction false} TrimStartDrops(u: string, s: string)
    requires Blank(u) && (s == "" || !IsSpace(s[0]))
    ensures TrimStart(u + s) == s
    decreases |u|
  {
    if u == "" {
      assert u + s == s;
    } else {
      assert (u + s)[1..] == u[1..] + s;
      TrimStartDrops(u[1..], s);
    }
  }

  lemma {:induction false} TrimEndDrops(s: string, v: string)
    requires Blank(v) && (s == "" || !IsSpace(s[|s| - 1]))
    ensures TrimEnd(s + v) == s
    decreases |v|
  {
    if v == "" {
      assert s + v == s;
    } else {
      var n := |v| - 1;
      assert (s + v)[..|s + v| - 1] == s + v[..n];
      TrimEndDrops(s, v[..n]);
    }
  }

  /** White space around the path is dropped. */
  lemma TrimDrops(u: string, s: string, v: string)
    requires Blank(u) && Blank(v) && IsCore(s)
    ensures Trim(u + s + v) == s
  {
    assert u + s + v == u + (s + v);
    TrimStartDrops(u, s + v);
    TrimEndDrops(s, v);
  }

  /** The values on the way down a path: the context first, and of each the next part's field. */
  ghost predicate LeadsTo(ctx: Context, parts: seq<string>, values: seq<Value>) {
    |parts| >= 1 && Descends(Obj(ctx, "[object Object]"), parts, values)
  }

  ghost predicate Descends(v: Value, parts: seq<string>, values: seq<Value>) {
    && |values| == |parts| + 1 && values[0] == v
    && forall k :: 0 <= k < |parts| ==>
         values[k + 1] == (if values[k].Obj? && parts[k] in values[k].fields then values[k].fields[parts[k]]
                           else Undefined)
  }

  lemma {:induction false} WalkLeads(v: Value, parts: seq<string>, values: seq<Value>)
    requires Descends(v, parts, values)
    ensures Walk(v, parts) == values[|parts|]
    decreases |parts|
  {
    if parts != [] {
      WalkLeads(values[1], parts[1..], values[1..]);
    }
  }

  lemma {:induction false} SplitOfJoin(parts: seq<string>)
    requires |parts| >= 1 && forall k :: 0 <= k < |parts| ==> '.' !in parts[k]
    ensures Split(Join(parts)) == parts
    decreases |parts|
  {
    SplitName(parts[0]);
    if |parts| > 1 {
      SplitAppend(parts[0], Join(parts[1..]));
      SplitOfJoin(parts[1..]);
    } else {
      assert parts == [parts[0]];
    }
  }

  lemma PathLeads(parts: seq<string>, values: seq<Value>, ctx: Context)
    requires LeadsTo(ctx, parts, values) && forall k :: 0 <= k < |parts| ==> '.' !in parts[k]
    ensures ResolvePath(Join(parts), ctx) == values[|parts|]
  {
    hide Split, Join, Walk;
    SplitOfJoin(parts);
    WalkLeads(Obj(ctx, "[object Object]"), parts, values);
  }

  /** A match stands for the value that the parts of its path lead to, white space around the path apart:
      its text, or nothing when there is no value or a null. */
  lemma MatchStandsFor(u: string, parts: seq<string>, v: string, values: seq<Value>, ctx: Context)
    requires LeadsTo(ctx, parts, values) && forall k :: 0 <= k < |parts| ==> '.' !in parts[k]
    requires Blank(u) && Blank(v) && IsCore(Join(parts))
    ensures var m, value := "{{" + u + Join(parts) + v + "}}", values[|parts|];
            |m| >= 4 && Replacement(m, ctx) == (if value.Undefined? || value.Null? then "" else value.text)
  {
    var m := "{{" + (u + Join(parts) + v) + "}}";
    assert "{{" + u + Join(parts) + v + "}}" == m && m[2..|m| - 2] == u + Join(parts) + v;
    hide Trim, Split, Join;
    TrimDrops(u, Join(parts), v);
    PathLeads(parts, values, ctx);
  }

  /** A match with a blank path is left as it is. */
  lemma BlankMatchStays(u: string, ctx: Context)
    requires Blank(u)
    ensures var m := "{{" + u + "}}"; |m| >= 4 && Replacement(m, ctx) == m
  {
    var m := "{{" + u + "}}";
    assert m[2..|m| - 2] == u;
    hide Trim;
    TrimIsEmptyIffBlank(u);
  }
}
