/** The two ways the renderer turns a list of string fragments into one string. */
module Text {

  /** The number of characters in all the fragments together. */
  function TotalLength(fragments: seq<string>): nat
  {
    if |fragments| == 0 then 0 else |fragments[0]| + TotalLength(fragments[1..])
  }

  /** `fragments.join('')`, and also how React shows an array of strings as
      children: the fragments in order, nothing between them. */
  function Concat(fragments: seq<string>): (s: string)
    ensures |s| == TotalLength(fragments)
  {
    if |fragments| == 0 then "" else fragments[0] + Concat(fragments[1..])
  }

  /** `${fragments}` in a template literal: Array.prototype.toString, which
      puts a comma between consecutive fragments. */
  function CommaJoin(fragments: seq<string>): (s: string)
    ensures |fragments| > 0 ==> |s| == TotalLength(fragments) + |fragments| - 1
    ensures |fragments| == 0 ==> s == ""
  {
    if |fragments| == 0 then ""
    else if |fragments| == 1 then fragments[0]
    else fragments[0] + "," + CommaJoin(fragments[1..])
  }

  /** Joining is a homomorphism: the text of two lists of fragments is the text
      of the first followed by the text of the second. */
  lemma {:induction false} ConcatAppend(a: seq<string>, b: seq<string>)
    ensures Concat(a + b) == Concat(a) + Concat(b)
  {
    if |a| == 0 {
      assert a + b == b;
    } else {
      assert (a + b)[1..] == a[1..] + b;
      ConcatAppend(a[1..], b);
    }
  }

  /** Interpolating two non-empty lists of fragments gives the text of the
      first, one comma, then the text of the second: exactly one comma sits
      between each pair of consecutive fragments. */
  lemma {:induction false} CommaJoinAppend(a: seq<string>, b: seq<string>)
    requires |a| > 0 && |b| > 0
    ensures CommaJoin(a + b) == CommaJoin(a) + "," + CommaJoin(b)
  {
    assert (a + b)[0] == a[0] && (a + b)[1..] == a[1..] + b;
    if |a| == 1 {
      assert a[1..] + b == b;
    } else {
      CommaJoinAppend(a[1..], b);
    }
  }

  /** Nothing is added or removed: fragment i sits, unchanged, right after the
      characters of the fragments before it. */
  lemma FragmentInPlace(fragments: seq<string>, i: nat)
    requires i < |fragments|
    ensures TotalLength(fragments[..i]) + |fragments[i]| <= |Concat(fragments)|
    ensures Concat(fragments)[TotalLength(fragments[..i])..TotalLength(fragments[..i]) + |fragments[i]|] == fragments[i]
  {
    var before, after := fragments[..i], fragments[i + 1..];
    assert fragments == before + ([fragments[i]] + after);
    ConcatAppend(before, [fragments[i]] + after);
    ConcatAppend([fragments[i]], after);
    assert Concat([fragments[i]]) == fragments[i] by {
      assert [fragments[i]][1..] == [];
    }
  }
}
