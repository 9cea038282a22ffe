/** Query keys and the cache effects of mutations, as the TanStack Query
    hooks use them. A key is an array of parts; `invalidateQueries` marks every
    cached query whose key starts with the given key. */
module QueryCache {
  import opened Common

  /** One element of a key array. `Filters` stands for an optional filters
      object, `Undefined` for a non-null assertion on a missing id. */
  datatype KeyPart = Text(text: string) | Number(number: int) | Filters(filters: Option<map<string, string>>) | Undefined

  type QueryKey = seq<KeyPart>

  /** `p` is a prefix of `k`: invalidating `p` reaches the query `k`. */
  predicate IsPrefix(p: QueryKey, k: QueryKey)
  {
    |p| <= |k| && k[..|p|] == p
  }

  /** The key factory both entity hooks spell out: `all`, `lists()`, `list(f)`,
      `details()` and `detail(id)`, each extending the one before it. */
  function AllKey(root: string): (k: QueryKey) { [Text(root)] }
  function ListsKey(root: string): (k: QueryKey) { AllKey(root) + [Text("list")] }
  function ListKey(root: string, f: Option<map<string, string>>): (k: QueryKey) { ListsKey(root) + [Filters(f)] }
  function DetailsKey(root: string): (k: QueryKey) { AllKey(root) + [Text("detail")] }
  function DetailKey(root: string, id: KeyPart): (k: QueryKey) { DetailsKey(root) + [id] }

  /** The family's shape: `all` prefixes everything, `lists()` every list key
      and `details()` every detail key; the two branches never prefix each
      other's keys; a list key and a detail key determine their filters and
      their id. */
  lemma KeyFamily(root: string, f: Option<map<string, string>>, g: Option<map<string, string>>, a: KeyPart, b: KeyPart)
    ensures IsPrefix(AllKey(root), ListKey(root, f)) && IsPrefix(AllKey(root), DetailKey(root, a))
    ensures IsPrefix(ListsKey(root), ListKey(root, f)) && IsPrefix(DetailsKey(root), DetailKey(root, a))
    ensures !IsPrefix(DetailsKey(root), ListKey(root, f)) && !IsPrefix(ListsKey(root), DetailKey(root, a))
    ensures !IsPrefix(ListKey(root, f), DetailKey(root, a)) && !IsPrefix(DetailKey(root, a), ListKey(root, f))
    ensures ListKey(root, f) == ListKey(root, g) ==> f == g
    ensures DetailKey(root, a) == DetailKey(root, b) ==> a == b
  {
    assert ListKey(root, f)[1] == Text("list") && DetailKey(root, a)[1] == Text("detail");
    assert "list"[0] != "detail"[0];
    if ListKey(root, f) == ListKey(root, g) {
      assert ListKey(root, f)[2] == Filters(f);
    }
    if DetailKey(root, a) == DetailKey(root, b) {
      assert DetailKey(root, a)[2] == a;
    }
  }

  /** Families with different roots are disjoint: no key of one prefixes a
      key of the other. */
  lemma FamiliesDisjoint(r1: string, r2: string, k: QueryKey)
    requires r1 != r2 && |k| >= 1
    requires IsPrefix(AllKey(r2), k)
    ensures !IsPrefix(AllKey(r1), k)
  {
    assert k[0] == Text(r2);
  }

  /** What a query hook passes to `useQuery`. */
  datatype QueryOptions = QueryOptions(key: QueryKey, enabled: bool, staleTime: nat)

  const ListStaleTime: nat := 1000 * 60 * 2
  const DetailStaleTime: nat := 1000 * 60 * 5

  /** What a call on the query client in a mutation's `onSuccess` does to
      the cached queries under the key. */
  datatype CacheOp = Invalidate | SetData | Remove

  /** One such call. The stored value of `SetData` is the server's reply and
      is not modelled. */
  datatype CacheEffect = CacheEffect(op: CacheOp, key: QueryKey)

  /** The keys a list of effects reaches with `op`. */
  function Touched(effects: seq<CacheEffect>, op: CacheOp): (keys: set<QueryKey>)
    ensures forall k :: k in keys <==> exists i :: 0 <= i < |effects| && effects[i] == CacheEffect(op, k)
    decreases |effects|
  {
    if |effects| == 0 then {}
    else
      var last := effects[|effects| - 1];
      var rest := Touched(effects[..|effects| - 1], op);
      assert forall i :: 0 <= i < |effects| - 1 ==> effects[..|effects| - 1][i] == effects[i];
      if last.op == op then rest + {last.key} else rest
  }

  /** Appending one effect adds its key to the keys of its own kind only. */
  lemma TouchedSnoc(effects: seq<CacheEffect>, e: CacheEffect, op: CacheOp)
    ensures Touched(effects + [e], op) == Touched(effects, op) + (if e.op == op then {e.key} else {})
  {
    assert (effects + [e])[..|effects|] == effects;
  }

  /** The keys of a list of one, two or three effects. */
  lemma TouchedSmall(a: CacheEffect, b: CacheEffect, c: CacheEffect, op: CacheOp)
    ensures Touched([a], op) == (if a.op == op then {a.key} else {})
    ensures Touched([a, b], op) == Touched([a], op) + (if b.op == op then {b.key} else {})
    ensures Touched([a, b, c], op) == Touched([a, b], op) + (if c.op == op then {c.key} else {})
  {
    TouchedSnoc([], a, op);
    assert [] + [a] == [a];
    TouchedSnoc([a], b, op);
    assert [a] + [b] == [a, b];
    TouchedSnoc([a, b], c, op);
    assert [a, b] + [c] == [a, b, c];
  }

  /** The cached query `key` is marked stale by the effects. */
  predicate Stale(effects: seq<CacheEffect>, key: QueryKey)
  {
    exists p :: p in Touched(effects, Invalidate) && IsPrefix(p, key)
  }
}
