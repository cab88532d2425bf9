/**
 * The two string operations the store's location lookup relies on:
 * `toLowerCase` (restricted to ASCII letters) and `includes`.
 */
module Text {

  function ToLowerChar(c: char): (d: char)
  {
    if 'A' <= c <= 'Z' then (c as int + 32) as char else c
  }

  /** `s.toLowerCase()`, ASCII letters only. */
  function ToLower(s: string): (r: string)
    ensures |r| == |s|
    ensures forall i :: 0 <= i < |s| ==> r[i] == ToLowerChar(s[i])
  {
    if s == [] then [] else [ToLowerChar(s[0])] + ToLower(s[1..])
  }

  /** `hay.includes(needle)`: tries every start position from the left. */
  function Includes(hay: string, needle: string): (b: bool)
    decreases |hay|
  {
    if |needle| > |hay| then false
    else if hay[..|needle|] == needle then true
    else Includes(hay[1..], needle)
  }

  /** `needle` occurs in `hay` starting at position `i`. */
  predicate OccursAt(hay: string, needle: string, i: int)
  {
    0 <= i && i + |needle| <= |hay| && hay[i..i + |needle|] == needle
  }

  /** `Includes` holds exactly when `needle` occurs at some position of `hay`. */
  lemma {:induction false} IncludesIff(hay: string, needle: string)
    ensures Includes(hay, needle) <==> exists i :: OccursAt(hay, needle, i)
    decreases |hay|
  {
    if |needle| > |hay| {
    } else if hay[..|needle|] == needle {
      assert OccursAt(hay, needle, 0);
    } else {
      IncludesIff(hay[1..], needle);
      if Includes(hay[1..], needle) {
        var i :| OccursAt(hay[1..], needle, i);
        OccursAtCons(hay, needle, i);
      } else {
        forall i | 0 < i && OccursAt(hay, needle, i) ensures OccursAt(hay[1..], needle, i - 1) {
          OccursAtTail(hay, needle, i);
        }
      }
    }
  }

  /** An occurrence in the tail is an occurrence one place further right in the whole. */
  lemma OccursAtCons(hay: string, needle: string, i: int)
    requires |hay| > 0 && OccursAt(hay[1..], needle, i)
    ensures OccursAt(hay, needle, i + 1)
  {
    assert hay[i + 1..i + 1 + |needle|] == hay[1..][i..i + |needle|];
  }

  /** An occurrence past the first position is an occurrence in the tail. */
  lemma OccursAtTail(hay: string, needle: string, i: int)
    requires 0 < i && OccursAt(hay, needle, i)
    ensures OccursAt(hay[1..], needle, i - 1)
  {
    assert hay[1..][i - 1..i - 1 + |needle|] == hay[i..i + |needle|];
  }

  /** Every string contains itself. */
  lemma IncludesSelf(s: string)
    ensures Includes(s, s)
  {
    IncludesIff(s, s);
    assert OccursAt(s, s, 0);
  }

  /** The empty string is inside every string. */
  lemma IncludesEmpty(hay: string)
    ensures Includes(hay, "")
  {
    assert hay[..0] == "";
  }

  /** A needle longer than the haystack is never found. */
  lemma {:induction false} IncludesNotLonger(hay: string, needle: string)
    ensures Includes(hay, needle) ==> |needle| <= |hay|
    decreases |hay|
  {
    if |needle| <= |hay| && hay[..|needle|] != needle {
      IncludesNotLonger(hay[1..], needle);
    }
  }

  /** Lower-casing twice is lower-casing once. */
  lemma ToLowerIdempotent(s: string)
    ensures ToLower(ToLower(s)) == ToLower(s)
  {
  }

  /** The case-insensitive, query-inside-value test the store applies to one field. */
  predicate ContainsIgnoringCase(value: string, query: string)
  {
    Includes(ToLower(value), ToLower(query))
  }
}
