/**
 * The white-space trimming that the product form and the invoice form apply
 * to what the user typed (JavaScript's `String.prototype.trim`).
 */
module Text {

  /** JavaScript's WhiteSpace and LineTerminator code points, the set `trim` strips. */
  predicate IsSpace(c: char) {
    var n := c as int;
    n == 0x09 || n == 0x0A || n == 0x0B || n == 0x0C || n == 0x0D || n == 0x20
    || n == 0xA0 || n == 0x1680 || (0x2000 <= n <= 0x200A)
    || n == 0x2028 || n == 0x2029 || n == 0x202F || n == 0x205F || n == 0x3000
    || n == 0xFEFF
  }

  predicate AllSpace(s: string) {
    forall i :: 0 <= i < |s| ==> IsSpace(s[i])
  }

  /**
   * `s.trim()`: white space is dropped from the front, then from the back.
   * The result is empty exactly when `s` is all white space, and otherwise
   * neither starts nor ends with white space.
   */
  function Trim(s: string): (r: string)
    ensures |r| <= |s|
    ensures r == [] <==> AllSpace(s)
    ensures r != [] ==> !IsSpace(r[0]) && !IsSpace(r[|r| - 1])
  {
    if s == [] then []
    else if IsSpace(s[0]) then
      assert AllSpace(s[1..]) ==> AllSpace(s) by {
        if AllSpace(s[1..]) {
          forall i | 1 <= i < |s| ensures IsSpace(s[i]) {
            assert s[i] == s[1..][i - 1];
          }
        }
      }
      Trim(s[1..])
    else if IsSpace(s[|s| - 1]) then Trim(s[..|s| - 1])
    else s
  }

  /** The number of white-space characters `s` starts with. */
  function Lead(s: string): (n: nat)
    ensures n <= |s|
    ensures forall i :: 0 <= i < n ==> IsSpace(s[i])
    ensures n < |s| ==> !IsSpace(s[n])
  {
    if s == [] || !IsSpace(s[0]) then 0 else 1 + Lead(s[1..])
  }

  /** `r` sits in `s` at offset `l`, and everything outside it is white space. */
  predicate FramedBySpace(s: string, l: nat, r: string) {
    && l + |r| <= |s|
    && r == s[l..l + |r|]
    && forall i :: 0 <= i < |s| && !(l <= i < l + |r|) ==> IsSpace(s[i])
  }

  /**
   * What `trim` keeps is one contiguous run of `s`, starting after the
   * leading white space, and everything outside that run is white space.
   */
  lemma {:induction false} TrimIsSlice(s: string)
    ensures FramedBySpace(s, Lead(s), Trim(s))
  {
    if s == [] {
    } else if IsSpace(s[0]) {
      TrimIsSlice(s[1..]);
      FramedAfterLeadingSpace(s, Lead(s[1..]), Trim(s[1..]));
    } else if IsSpace(s[|s| - 1]) {
      TrimIsSlice(s[..|s| - 1]);
      assert Lead(s[..|s| - 1]) == 0 by {
        assert s[..|s| - 1][0] == s[0];
      }
      FramedBeforeTrailingSpace(s, Trim(s[..|s| - 1]));
    } else {
      assert Lead(s) == 0 && Trim(s) == s;
    }
  }

  lemma FramedAfterLeadingSpace(s: string, l: nat, r: string)
    requires s != [] && IsSpace(s[0]) && FramedBySpace(s[1..], l, r)
    ensures FramedBySpace(s, l + 1, r)
  {
    var t := s[1..];
    assert s[l + 1..l + 1 + |r|] == t[l..l + |r|];
    forall i | 0 <= i < |s| && !(l + 1 <= i < l + 1 + |r|) ensures IsSpace(s[i]) {
      if i > 0 {
        assert s[i] == t[i - 1];
      }
    }
  }

  lemma FramedBeforeTrailingSpace(s: string, r: string)
    requires s != [] && IsSpace(s[|s| - 1]) && FramedBySpace(s[..|s| - 1], 0, r)
    ensures FramedBySpace(s, 0, r)
  {
    var t := s[..|s| - 1];
    assert s[..|r|] == t[..|r|];
    forall i | 0 <= i < |s| && !(0 <= i < |r|) ensures IsSpace(s[i]) {
      if i < |s| - 1 {
        assert s[i] == t[i];
      }
    }
  }
}
