/**
 * Proof outlines for programs.  An outline gives every action a logical time,
 * says which actions of a rank the DAG orders, and predicts (where it matters)
 * what a memory element holds at each logical time.  Its four conditions speak
 * of the program only, never of its runs.
 */
module Outlines {
  import opened Actions

  datatype Outline = Outline(
    when: Id -> nat,
    ord: (Id, Id) -> bool,
    val: (nat, nat, nat) -> Option<Val>)

  /** Time grows along every edge and both ends of a transfer share it. */
  ghost predicate Timed(p: Program, o: Outline) {
    && (forall a, b | (a, b) in p.edges :: o.when(a) < o.when(b))
    && (forall id | IsTransfer(p, id) :: o.when(Mate(id)) == o.when(id))
  }

  /** `c` is the last step of a dependency path from `a` to `b`. */
  predicate LastStep(p: Program, o: Outline, a: Id, b: Id, c: Id) {
    (c, b) in p.edges && (c == a || o.ord(a, c))
  }

  /** The claimed order is made of dependency paths. */
  ghost predicate Backed(p: Program, o: Outline) {
    forall a, b | a in p.acts && b in p.acts && o.ord(a, b) ::
      o.when(a) < o.when(b) && exists c :: LastStep(p, o, a, b, c)
  }

  /** Two actions of one rank that touch the same element, one of them writing, are ordered. */
  ghost predicate RaceFree(p: Program, o: Outline) {
    forall a, b, x | a in p.acts && b in p.acts && a != b && a.rank == b.rank && Clash(p, a, b, x) ::
      o.ord(a, b) || o.ord(b, a)
  }

  /** No action of rank `r` updates `x` at time `t`. */
  ghost predicate Idle(p: Program, o: Outline, t: nat, r: nat, x: nat) {
    forall w | w in p.acts && w.rank == r && Updates(p, w, x) :: o.when(w) != t
  }

  ghost predicate Framed(p: Program, o: Outline) {
    forall t: nat, r: nat, x: nat | r < p.n && x < p.size && Idle(p, o, t, r, x) && o.val(t + 1, r, x).Some? ::
      o.val(t, r, x) == o.val(t + 1, r, x)
  }

  /** What the receive fed by send `id` stores at its `i`-th element is what the outline predicts. */
  ghost predicate RecvExplained(p: Program, o: Outline, id: Id, i: nat)
    requires IsTransfer(p, id) && Near(p, id) && i < p.acts[id].nelems
  {
    var to := Mate(id);
    var t := o.when(id);
    var x := Addr(p, p.acts[to]) + i;
    var sent := o.val(t, id.rank, Addr(p, p.acts[id]) + i);
    o.val(t + 1, to.rank, x).Some? ==>
      && sent.Some?
      && (if p.acts[to].mode.RecvReduce? then
            o.val(t, to.rank, x).Some? && o.val(t + 1, to.rank, x).value == o.val(t, to.rank, x).value + sent.value
          else o.val(t + 1, to.rank, x) == sent)
  }

  ghost predicate RecvsExplained(p: Program, o: Outline)
    requires Sound(p)
  {
    forall id, i: nat | IsTransfer(p, id) && i < p.acts[id].nelems :: RecvExplained(p, o, id, i)
  }

  ghost predicate ShufflesExplained(p: Program, o: Outline) {
    forall id, x | id in p.acts && id.kind.Shuffle? && x in p.acts[id].copies
                   && o.val(o.when(id) + 1, id.rank, x).Some? ::
      o.val(o.when(id), id.rank, p.acts[id].copies[x]) == o.val(o.when(id) + 1, id.rank, x)
  }

  /** Nothing is ever predicted for scratch elements. */
  ghost predicate ScratchBlank(p: Program, o: Outline) {
    forall id, x, t | id in p.acts && Lands(p, id, x) :: o.val(t, id.rank, x) == None
  }

  ghost predicate Explained(p: Program, o: Outline)
    requires Sound(p)
  {
    Framed(p, o) && RecvsExplained(p, o) && ShufflesExplained(p, o) && ScratchBlank(p, o)
  }

  ghost predicate Valid(p: Program, o: Outline) {
    Sound(p) && Timed(p, o) && Backed(p, o) && RaceFree(p, o) && Explained(p, o)
  }

  /** The memory agrees with the outline's prediction for time 0. */
  ghost predicate Begins(p: Program, o: Outline, mem: seq<seq<Val>>) {
    && |mem| == p.n
    && (forall r | 0 <= r < p.n :: |mem[r]| == p.size)
    && (forall r, x | 0 <= r < p.n && 0 <= x < p.size && o.val(0, r, x).Some? ::
          mem[r][x] == o.val(0, r, x).value)
  }
}
