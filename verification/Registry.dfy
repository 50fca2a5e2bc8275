/** The run-scoped registries of the handler's first pass
    (src/routes/api/valorant/newgame/+server.ts:43-63): every team of every
    game of every processed match is `set` into a `Map` keyed by
    `battlefyTeamID`, and every player into one keyed by `puuid`. */
module Registry {
  import opened Records

  /** A list entry is processed unless it is a bye or its detail could not
      be fetched and validated. */
  predicate Processed(e: ListEntry, fetched: map<string, MatchDetail>) {
    !e.isBye && e.id in fetched
  }

  /** The games of the processed entries, in list order. */
  function SeenGames(es: seq<ListEntry>, fetched: map<string, MatchDetail>): seq<Game> {
    if |es| == 0 then []
    else (if Processed(es[0], fetched) then fetched[es[0].id].games else []) + SeenGames(es[1..], fetched)
  }

  /** The teams of a sequence of games, in order. */
  function SeenTeams(gs: seq<Game>): seq<GameTeam> {
    if |gs| == 0 then [] else gs[0].teams + SeenTeams(gs[1..])
  }

  /** The players of a sequence of teams, in order. */
  function SeenPlayers(ts: seq<GameTeam>): seq<StatPlayer> {
    if |ts| == 0 then [] else ts[0].players + SeenPlayers(ts[1..])
  }

  /** The distinct keys of a sequence of values. */
  function KeySet<K, V(==)>(vs: seq<V>, key: V -> K): set<K> {
    set v | v in vs :: key(v)
  }

  /** `Map.prototype.set` applied to each value in turn: a value whose key
      is already present replaces the stored value and adds no key. */
  function Register<K, V(==)>(m: map<K, V>, vs: seq<V>, key: V -> K): (r: map<K, V>)
    decreases |vs|
    ensures r.Keys == m.Keys + KeySet(vs, key)
    ensures forall k | k in m && k !in KeySet(vs, key) :: r[k] == m[k]
    ensures forall k | k in KeySet(vs, key) :: r[k] in vs && key(r[k]) == k
  {
    if |vs| == 0 then m
    else
      var r := Register(m[key(vs[0]) := vs[0]], vs[1..], key);
      assert forall v | v in vs :: v == vs[0] || v in vs[1..];
      r
  }

  function TeamIdOf(t: GameTeam): string {
    t.battlefyTeamID
  }

  function PuuidOf(p: StatPlayer): string {
    p.puuid
  }

  /** The team registry at the end of the first pass. */
  function TeamRegistry(es: seq<ListEntry>, fetched: map<string, MatchDetail>): (r: map<string, GameTeam>)
    ensures r.Keys == set t | t in SeenTeams(SeenGames(es, fetched)) :: t.battlefyTeamID
    ensures forall id | id in r :: r[id] in SeenTeams(SeenGames(es, fetched)) && r[id].battlefyTeamID == id
  {
    Register(map[], SeenTeams(SeenGames(es, fetched)), TeamIdOf)
  }

  /** The player registry at the end of the first pass. */
  function PlayerRegistry(es: seq<ListEntry>, fetched: map<string, MatchDetail>): (r: map<string, StatPlayer>)
    ensures r.Keys == set p | p in SeenPlayers(SeenTeams(SeenGames(es, fetched))) :: p.puuid
    ensures forall id | id in r :: r[id] in SeenPlayers(SeenTeams(SeenGames(es, fetched))) && r[id].puuid == id
  {
    Register(map[], SeenPlayers(SeenTeams(SeenGames(es, fetched))), PuuidOf)
  }

  /** Setting an existing key leaves the key set unchanged and setting a new
      key adds exactly that key. */
  lemma RegisterOne<K, V>(m: map<K, V>, v: V, key: V -> K)
    ensures key(v) in m ==> Register(m, [v], key).Keys == m.Keys
    ensures key(v) !in m ==> |Register(m, [v], key)| == |m| + 1
    ensures Register(m, [v], key)[key(v)] == v
  {
    assert [v][1..] == [];
  }

  lemma KeySetCons<K, V>(vs: seq<V>, key: V -> K)
    requires |vs| > 0
    ensures KeySet(vs, key) == {key(vs[0])} + KeySet(vs[1..], key)
  {
    assert forall v | v in vs :: v == vs[0] || v in vs[1..];
  }

  lemma KeySetConcat<K, V>(a: seq<V>, b: seq<V>, key: V -> K)
    ensures KeySet(a + b, key) == KeySet(a, key) + KeySet(b, key)
  {
    assert forall v | v in a + b :: v in a || v in b;
  }

  /** A registry built from nothing holds one entry per distinct key, so it
      never holds more entries than values were set. */
  lemma {:induction false} RegistrySize<K, V>(vs: seq<V>, key: V -> K)
    ensures |Register(map[], vs, key)| == |KeySet(vs, key)|
    ensures |KeySet(vs, key)| <= |vs|
    decreases |vs|
  {
    if |vs| > 0 {
      RegistrySize(vs[1..], key);
      KeySetCons(vs, key);
    }
  }

  /** Each key holds the LAST value set under it. */
  lemma {:induction false} RegisterLastWins<K, V>(m: map<K, V>, vs: seq<V>, key: V -> K, i: nat)
    requires i < |vs|
    requires forall j | i < j < |vs| :: key(vs[j]) != key(vs[i])
    ensures key(vs[i]) in Register(m, vs, key) && Register(m, vs, key)[key(vs[i])] == vs[i]
    decreases |vs|
  {
    var m' := m[key(vs[0]) := vs[0]];
    if i == 0 {
      RegisterKeepsUntouched(m', vs[1..], key, key(vs[0]));
    } else {
      RegisterLastWins(m', vs[1..], key, i - 1);
    }
  }

  /** A key no later value carries keeps its stored value. */
  lemma {:induction false} RegisterKeepsUntouched<K, V>(m: map<K, V>, vs: seq<V>, key: V -> K, k: K)
    requires k in m
    requires forall j | 0 <= j < |vs| :: key(vs[j]) != k
    ensures k in Register(m, vs, key) && Register(m, vs, key)[k] == m[k]
    decreases |vs|
  {
    if |vs| > 0 {
      RegisterKeepsUntouched(m[key(vs[0]) := vs[0]], vs[1..], key, k);
    }
  }

  lemma {:induction false} SeenGamesConcat(a: seq<ListEntry>, b: seq<ListEntry>, fetched: map<string, MatchDetail>)
    ensures SeenGames(a + b, fetched) == SeenGames(a, fetched) + SeenGames(b, fetched)
    decreases |a|
  {
    if |a| == 0 {
      assert a + b == b;
    } else {
      assert (a + b)[1..] == a[1..] + b;
      SeenGamesConcat(a[1..], b, fetched);
    }
  }

  lemma {:induction false} SeenTeamsConcat(a: seq<Game>, b: seq<Game>)
    ensures SeenTeams(a + b) == SeenTeams(a) + SeenTeams(b)
    decreases |a|
  {
    if |a| == 0 {
      assert a + b == b;
    } else {
      assert (a + b)[1..] == a[1..] + b;
      SeenTeamsConcat(a[1..], b);
    }
  }

  lemma {:induction false} SeenPlayersConcat(a: seq<GameTeam>, b: seq<GameTeam>)
    ensures SeenPlayers(a + b) == SeenPlayers(a) + SeenPlayers(b)
    decreases |a|
  {
    if |a| == 0 {
      assert a + b == b;
    } else {
      assert (a + b)[1..] == a[1..] + b;
      SeenPlayersConcat(a[1..], b);
    }
  }

  lemma {:induction false} RegisterConcat<K, V>(m: map<K, V>, a: seq<V>, b: seq<V>, key: V -> K)
    ensures Register(m, a + b, key) == Register(Register(m, a, key), b, key)
    decreases |a|
  {
    if |a| == 0 {
      assert a + b == b;
    } else {
      assert (a + b)[1..] == a[1..] + b;
      RegisterConcat(m[key(a[0]) := a[0]], a[1..], b, key);
    }
  }
}
