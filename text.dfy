/** Case folding and substring search on names, as the search box uses them.
    Lowering is ASCII-only: `String.prototype.toLowerCase` folds the whole of
    Unicode, which this model does not. */
module Text {

  predicate IsUpper(c: char)
  {
    'A' <= c <= 'Z'
  }

  /** ASCII lower-casing of one character. */
  function LowerChar(c: char): char
  {
    if IsUpper(c) then (c as int + 32) as char else c
  }

  /** Lower-cases every character: a capital becomes the letter at the same
      alphabet position in 'a'..'z', every other character is kept, and no
      upper-case letter is left. */
  function Lower(s: string): (r: string)
    ensures |r| == |s|
    ensures forall i :: 0 <= i < |s| && !IsUpper(s[i]) ==> r[i] == s[i]
    ensures forall i :: 0 <= i < |s| && IsUpper(s[i]) ==>
      'a' <= r[i] <= 'z' && r[i] as int - 'a' as int == s[i] as int - 'A' as int
    ensures forall i :: 0 <= i < |r| ==> !IsUpper(r[i])
  {
    seq(|s|, i requires 0 <= i < |s| => LowerChar(s[i]))
  }

  /** Lowering a string that is already lower-case changes nothing. */
  lemma LowerIdempotent(s: string)
    ensures Lower(Lower(s)) == Lower(s)
  {
    var once := Lower(s);
    forall i | 0 <= i < |s|
      ensures Lower(once)[i] == once[i]
    {
      assert !IsUpper(once[i]);
    }
  }

  /** `c` and `d` are the same character up to the case of an ASCII letter. */
  predicate SameLetterUpToCase(c: char, d: char)
  {
    || c == d
    || (IsUpper(c) && d as int == c as int + 32)
    || (IsUpper(d) && c as int == d as int + 32)
  }

  /** `s` and `t` differ at most in the case of ASCII letters. */
  predicate SameUpToCase(s: string, t: string)
  {
    |s| == |t| && forall i :: 0 <= i < |s| ==> SameLetterUpToCase(s[i], t[i])
  }

  /** Two strings lower to the same string exactly when they differ at most
      in the case of ASCII letters. */
  lemma LowerUpToCase(s: string, t: string)
    ensures Lower(s) == Lower(t) <==> SameUpToCase(s, t)
  {
    if SameUpToCase(s, t) {
      assert forall i :: 0 <= i < |s| ==> Lower(s)[i] == Lower(t)[i];
    }
    if Lower(s) == Lower(t) {
      forall i | 0 <= i < |s|
        ensures SameLetterUpToCase(s[i], t[i])
      {
        assert Lower(s)[i] == Lower(t)[i];
      }
    }
  }

  /** `s.includes(sub)`: `sub` occurs in `s` at some position. */
  function Contains(s: string, sub: string): (r: bool)
    ensures sub == "" ==> r
    ensures r ==> |sub| <= |s|
    decreases |s|
  {
    sub <= s || (|s| > 0 && Contains(s[1..], sub))
  }

  /** `sub` occurs in `s` starting at position `i`. */
  predicate OccursAt(s: string, sub: string, i: int)
  {
    0 <= i <= |s| - |sub| && s[i..i + |sub|] == sub
  }

  /** An occurrence found by Contains is an occurrence at some position. */
  lemma {:induction false} ContainsHasOccurrence(s: string, sub: string)
    requires Contains(s, sub)
    ensures exists i :: OccursAt(s, sub, i)
    decreases |s|
  {
    if sub <= s {
      assert OccursAt(s, sub, 0);
    } else {
      var tail := s[1..];
      ContainsHasOccurrence(tail, sub);
      var i :| OccursAt(tail, sub, i);
      assert s[i + 1..i + 1 + |sub|] == tail[i..i + |sub|];
      assert OccursAt(s, sub, i + 1);
    }
  }

  /** An occurrence at any position is found by Contains. */
  lemma {:induction false} OccurrenceIsContained(s: string, sub: string, i: int)
    requires OccursAt(s, sub, i)
    ensures Contains(s, sub)
    decreases i
  {
    if i == 0 {
      assert s[..|sub|] == sub;
    } else {
      var tail := s[1..];
      assert tail[i - 1..i - 1 + |sub|] == s[i..i + |sub|];
      OccurrenceIsContained(tail, sub, i - 1);
    }
  }

  /** Contains agrees with the positional definition of an occurrence. */
  lemma ContainsAt(s: string, sub: string)
    ensures Contains(s, sub) <==> exists i :: OccursAt(s, sub, i)
  {
    if Contains(s, sub) {
      ContainsHasOccurrence(s, sub);
    } else {
      forall i | OccursAt(s, sub, i)
        ensures false
      {
        OccurrenceIsContained(s, sub, i);
      }
    }
  }

  /** The empty term occurs in every name. */
  lemma ContainsEmpty(s: string)
    ensures Contains(s, "")
  {
  }

  /** An example of case-insensitive search: after folding, an upper-case
      term is found in a lower-case name, and a lower-case term in a name
      written with capitals. */
  lemma CaseInsensitiveExample()
    ensures Contains(Lower("ali baba"), Lower("ALI"))
    ensures Contains(Lower("Ali Baba"), Lower("ali"))
  {
    assert Lower("ALI") == "ali";
    assert Lower("ali") == "ali";
    assert Lower("ali baba") == "ali baba";
    assert Lower("Ali Baba") == "ali baba";
    assert "ali" <= "ali baba";
  }
}
