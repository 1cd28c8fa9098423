/**
 `app/database.py` as it runs: the context variable, the hook on BEGIN, and the tenant session whose
 scope is closed however its body ends.
 */
module TenantSession {
  import opened SearchPath

  /** The context variable of one task; a token holds the value that `Set` replaced. */
  class ContextVar {
    var value: Path

    constructor ()
      ensures value == DEFAULT
    {
      value := DEFAULT;
    }

    method Set(v: Path) returns (token: Path)
      modifies this
      ensures value == v && token == old(value)
    {
      token := value;
      value := v;
    }

    method Reset(token: Path)
      modifies this
      ensures value == token
    {
      value := token;
    }
  }

  ghost predicate AllClean(pool: array<Backend>)
    reads pool
  {
    forall b | 0 <= b < pool.Length :: pool[b] == CLEAN
  }

  /** The hook: runs on the backend that the pool handed out for this BEGIN. */
  method InjectSearchPath(ctx: ContextVar, pool: array<Backend>, b: nat)
    requires b < pool.Length
    modifies pool
    ensures pool[..] == old(pool[..])[b := Begun(old(pool[b]), ctx.value)]
  {
    var schema := ctx.value;
    if schema != DEFAULT {
      pool[b] := LocalSet(pool[b], schema);
    }
  }

  /** How the body of a tenant session ends a transaction. */
  datatype Ending = Commits | RollsBack | Raises

  /** The number of transactions that run: up to and including the first that raises. */
  function Ran(endings: seq<Ending>, n: nat): (k: nat)
    requires n <= |endings|
    ensures k <= n && (k == n || (k > 0 && endings[k - 1] == Raises))
    ensures forall i | 0 <= i < k - 1 :: endings[i] != Raises
  {
    if n == 0 then 0
    else
      var k := Ran(endings, n - 1);
      if k == n - 1 && (k == 0 || endings[k - 1] != Raises) then n else k
  }

  /** A tenant session whose body runs one statement in each of several transactions.  Whatever backend
      each BEGIN is given and however the body ends, every statement sees the tenant's path, the
      context variable gets its value back, and no backend keeps the path. */
  method WithTenantDb(ctx: ContextVar, pool: array<Backend>, validName: bool, schema: Path, choices: seq<nat>,
      endings: seq<Ending>)
    returns (raised: bool, seen: seq<Path>)
    requires |choices| == |endings| && (forall i | 0 <= i < |choices| :: choices[i] < pool.Length)
    requires AllClean(pool) && (validName ==> schema != DEFAULT)
    modifies ctx, pool
    ensures ctx.value == old(ctx.value) && AllClean(pool)
    ensures raised <==> !validName || Raises in endings
    ensures |seen| == if validName then Ran(endings, |endings|) else 0
    ensures forall p | p in seen :: p == schema
  {
    seen := [];
    if !validName {
      return true, seen;
    }
    var token := ctx.Set(schema);
    raised := false;
    var i := 0;
    while i < |choices| && !raised
      invariant 0 <= i <= |choices| && ctx.value == schema && AllClean(pool)
      invariant |seen| == i == Ran(endings, i)
      invariant forall p | p in seen :: p == schema
      invariant raised <==> i > 0 && endings[i - 1] == Raises
      invariant !raised ==> Raises !in endings[..i]
    {
      var b := choices[i];
      InjectSearchPath(ctx, pool, b);
      assert pool[b] == Begun(CLEAN, schema) && forall c | 0 <= c < pool.Length && c != b :: pool[c] == CLEAN;
      seen := seen + [PathOf(pool[b])];
      pool[b] := if endings[i] == Commits then Committed(pool[b]) else RolledBack(pool[b]);
      raised := endings[i] == Raises;
      assert endings[..i + 1] == endings[..i] + [endings[i]];
      i := i + 1;
    }
    RanStays(endings, i, |endings|);
    assert endings[..|endings|] == endings;
    ctx.Reset(token);
  }

  lemma {:induction false} RanStays(endings: seq<Ending>, i: nat, n: nat)
    requires i <= n <= |endings| && Ran(endings, i) == i && (i == n || (i > 0 && endings[i - 1] == Raises))
    ensures Ran(endings, n) == i
    decreases n
  {
    if i < n { RanStays(endings, i, n - 1); }
  }
}
