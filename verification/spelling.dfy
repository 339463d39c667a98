/** Texts put together from the elements of a list. */
module Spelling {
  /** What the elements of a list say, one after the other. */
  function Spell<T>(xs: seq<T>, says: T -> string): string {
    if xs == [] then "" else Spell(xs[..|xs| - 1], says) + says(xs[|xs| - 1])
  }

  lemma {:induction false} SpellMore<T>(xs: seq<T>, x: T, says: T -> string)
    ensures Spell(xs + [x], says) == Spell(xs, says) + says(x)
  {
    assert (xs + [x])[..|xs|] == xs;
  }

  lemma {:induction false} SpellConcat<T>(a: seq<T>, b: seq<T>, says: T -> string)
    ensures Spell(a + b, says) == Spell(a, says) + Spell(b, says)
  {
    if b == [] {
      assert a + b == a;
    } else {
      assert (a + b)[..|a + b| - 1] == a + b[..|b| - 1];
      SpellConcat(a, b[..|b| - 1], says);
    }
  }

  lemma {:induction false} SpellThree<T>(a: seq<T>, b: seq<T>, c: seq<T>, says: T -> string)
    ensures Spell(a + b + c, says) == Spell(a, says) + Spell(b, says) + Spell(c, says)
  {
    SpellConcat(a + b, c, says);
    SpellConcat(a, b, says);
  }

  lemma SpellOne<T>(x: T, says: T -> string)
    ensures Spell([x], says) == says(x)
  {
    assert [x][..0] == [];
  }

  lemma Bare(x: string)
    ensures "" + x == x && x + "" == x
  {
  }
}
