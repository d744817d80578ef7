/** Sequences of steps, taken apart and put together. */
module RuntimeSteps {
  import opened Runtime

  lemma {:induction false} RunsCompose(s: Sys, ls: seq<Label>, ms: seq<Label>)
    requires Legal(s, ls) && Legal(Exec(s, ls), ms)
    ensures Legal(s, ls + ms) && Exec(s, ls + ms) == Exec(Exec(s, ls), ms)
    decreases |ls|
  {
    if ls == [] {
      assert ls + ms == ms;
    } else {
      assert (ls + ms)[0] == ls[0] && (ls + ms)[1..] == ls[1..] + ms;
      RunsCompose(Next(s, ls[0]), ls[1..], ms);
    }
  }

  lemma One(s: Sys, l: Label)
    requires Enabled(s, l)
    ensures Legal(s, [l]) && Exec(s, [l]) == Next(s, l)
  {
  }

  lemma Cons(s: Sys, l: Label, ls: seq<Label>)
    requires Enabled(s, l) && Legal(Next(s, l), ls)
    ensures Legal(s, [l] + ls) && Exec(s, [l] + ls) == Exec(Next(s, l), ls)
  {
    assert ([l] + ls)[1..] == ls;
  }

  lemma Two(s: Sys, l1: Label, l2: Label)
    requires Enabled(s, l1) && Enabled(Next(s, l1), l2)
    ensures Legal(s, [l1, l2]) && Exec(s, [l1, l2]) == Next(Next(s, l1), l2)
  {
    One(Next(s, l1), l2);
    Cons(s, l1, [l2]);
    assert [l1] + [l2] == [l1, l2];
  }

  lemma Three(s: Sys, l1: Label, l2: Label, l3: Label)
    requires Enabled(s, l1) && Enabled(Next(s, l1), l2) && Enabled(Next(Next(s, l1), l2), l3)
    ensures Legal(s, [l1, l2, l3]) && Exec(s, [l1, l2, l3]) == Next(Next(Next(s, l1), l2), l3)
  {
    Two(Next(s, l1), l2, l3);
    Cons(s, l1, [l2, l3]);
    assert [l1] + [l2, l3] == [l1, l2, l3];
  }

  lemma ThreeMore(s: Sys, l1: Label, l2: Label, l3: Label, ls: seq<Label>)
    requires Enabled(s, l1) && Enabled(Next(s, l1), l2) && Enabled(Next(Next(s, l1), l2), l3)
    requires Legal(Next(Next(Next(s, l1), l2), l3), ls)
    ensures Legal(s, [l1, l2, l3] + ls) && Exec(s, [l1, l2, l3] + ls) == Exec(Next(Next(Next(s, l1), l2), l3), ls)
  {
    Cons(Next(Next(s, l1), l2), l3, ls);
    Cons(Next(s, l1), l2, [l3] + ls);
    Cons(s, l1, [l2] + ([l3] + ls));
    assert [l1] + ([l2] + ([l3] + ls)) == [l1, l2, l3] + ls;
  }
}
