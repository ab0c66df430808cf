/** The string operations of ECMA-262 that the automation plugin relies on. */
module JsText {

  /** WhiteSpace and LineTerminator, sections 12.2 and 12.3. */
  predicate IsSpace(c: char) {
    var n := c as int;
    || 0x9 <= n <= 0xD || n == 0x20 || n == 0xA0 || n == 0x1680 || 0x2000 <= n <= 0x200A
    || n == 0x2028 || n == 0x2029 || n == 0x202F || n == 0x205F || n == 0x3000 || n == 0xFEFF
  }

  lemma SpaceChars(c: char)
    ensures (IsSpace(c) <==>
               c as int in {9, 10, 11, 12, 13, 32, 160, 5760, 8192, 8193, 8194, 8195, 8196, 8197, 8198, 8199, 8200,
                            8201, 8202, 8232, 8233, 8239, 8287, 12288, 65279})
  {
  }

  predicate Blank(s: string) {
    forall i :: 0 <= i < |s| ==> IsSpace(s[i])
  }

  function TrimStart(s: string): (r: string)
    ensures r == "" <==> Blank(s)
    ensures |r| <= |s| && r == s[|s| - |r|..]
    ensures r != "" ==> !IsSpace(r[0])
  {
    if s == "" || !IsSpace(s[0]) then s
    else
      assert Blank(s) <==> Blank(s[1..]) by {
        assert s == [s[0]] + s[1..];
      }
      TrimStart(s[1..])
  }

  function TrimEnd(s: string): (r: string)
    ensures |r| <= |s| && r == s[..|r|]
    ensures r == "" <==> Blank(s)
    ensures r != "" ==> !IsSpace(r[|r| - 1])
  {
    if s == "" || !IsSpace(s[|s| - 1]) then s
    else
      assert Blank(s) <==> Blank(s[..|s| - 1]) by {
        assert s == s[..|s| - 1] + [s[|s| - 1]];
      }
      TrimEnd(s[..|s| - 1])
  }

  /** String.prototype.trim, section 22.1.3.32. */
  function Trim(s: string): string {
    TrimEnd(TrimStart(s))
  }

  lemma TrimIsEmptyIffBlank(s: string)
    ensures Trim(s) == "" <==> Blank(s)
  {
  }

  predicate OccursAt(s: string, v: string, i: int) {
    0 <= i <= |s| - |v| && v == s[i..i + |v|]
  }

  ghost predicate Occurs(s: string, v: string) {
    exists i :: OccursAt(s, v, i)
  }

  /** String.prototype.includes, section 22.1.3.8. */
  function Includes(s: string, v: string): (b: bool)
    ensures b <==> Occurs(s, v)
  {
    if |s| < |v| then false
    else if v <= s then
      assert OccursAt(s, v, 0);
      true
    else
      assert Occurs(s, v) <==> Occurs(s[1..], v) by { OccursLater(s, v); }
      Includes(s[1..], v)
  }

  lemma OccursLater(s: string, v: string)
    requires |s| >= |v| && !(v <= s)
    ensures s != "" && (Occurs(s, v) <==> Occurs(s[1..], v))
  {
    assert v != "";
    if i :| OccursAt(s, v, i) {
      assert i != 0;
      assert s[i..i + |v|] == s[1..][i - 1..i - 1 + |v|];
      assert OccursAt(s[1..], v, i - 1);
    }
    if i :| OccursAt(s[1..], v, i) {
      assert s[1..][i..i + |v|] == s[i + 1..i + 1 + |v|];
      assert OccursAt(s, v, i + 1);
    }
  }
}
