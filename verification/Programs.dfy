/** Building programs from membership predicates. */
module Programs {
  import opened Actions

  /** All ids with rank and partner below `n` and round below `rounds`. */
  function AllIds(n: nat, rounds: nat): (ids: set<Id>)
    ensures forall id :: id in ids <==> id.rank < n && id.partner < n && id.round < rounds
  {
    set r: nat, k: Kind, q: nat, p: nat | 0 <= r < n && 0 <= q < rounds && 0 <= p < n :: Id(r, k, q, p)
  }

  ghost function Build(n: nat, rounds: nat, has: Id -> bool, act: Id -> Action, edge: (Id, Id) -> bool,
                       cfg: Config, recvBase: nat, sendBase: nat, size: nat): (p: Program)
    ensures p.n == n && p.cfg == cfg && p.recvBase == recvBase && p.sendBase == sendBase && p.size == size
    ensures forall id :: id in p.acts <==> id.rank < n && id.partner < n && id.round < rounds && has(id)
    ensures forall id | id in p.acts :: p.acts[id] == act(id)
    ensures forall a, b :: (a, b) in p.edges <==> a in p.acts && b in p.acts && edge(a, b)
  {
    var ids := set id | id in AllIds(n, rounds) && has(id);
    Program(n, map id | id in ids :: act(id), set a, b | a in ids && b in ids && edge(a, b) :: (a, b),
            cfg, recvBase, sendBase, size)
  }
}
