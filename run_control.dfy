/** The run registry: a table from session id to the run in progress for that
    session, enforcing at most one run per session and handing out cancellation
    tokens.

    The process-wide mutex-guarded table becomes one `RunRegistry` object used
    from a single thread. A cancellation token is identified by a number: every
    clone of a token carries the same number, and the registry records which
    numbers have been cancelled. Dropping a `RunGuard` becomes the explicit
    method `Release`. */
module RunControl {
  import opened Wrappers

  /** Identity of a cancellation token; clones share it. */
  type Token = nat

  datatype RunDescriptor = RunDescriptor(sessionId: string, runId: string)

  /** What the table stores per session. */
  datatype RunEntry = RunEntry(runId: string, token: Token)

  /** The owning handle returned by a successful registration. */
  datatype RunGuard = RunGuard(descriptor: RunDescriptor, token: Token) {
    /** `RunGuard::token`: a clone of the run's token, that is, the same token. */
    function Token(): Token {
      token
    }
  }

  /** Why a registration was refused: a run is already in progress for the session. */
  datatype RegisterError = AlreadyRunning(sessionId: string)

  class RunRegistry {
    var runs: map<string, RunEntry>
    var cancelled: set<Token>
    /** The next token number not yet handed out. */
    var nextToken: Token

    /** Every stored token has been handed out, no two sessions share a token, and
        only handed-out tokens can have been cancelled. */
    ghost predicate Valid()
      reads this
    {
      && (forall s :: s in runs ==> runs[s].token < nextToken)
      && (forall s, t :: s in runs && t in runs && s != t ==> runs[s].token != runs[t].token)
      && (forall k :: k in cancelled ==> k < nextToken)
    }

    /** The tokens of the runs in progress. */
    ghost function ActiveTokens(): set<Token>
      reads this
    {
      TokensOf(runs)
    }

    /** `CancellationToken::is_cancelled`. */
    predicate IsCancelled(t: Token)
      reads this
    {
      t in cancelled
    }

    constructor ()
      ensures Valid()
      ensures runs == map[] && cancelled == {}
    {
      runs := map[];
      cancelled := {};
      nextToken := 0;
    }

    /** `register_run`: refuses a session that already has a run and changes
        nothing then; otherwise stores the run under a new, uncancelled token
        and returns a guard carrying the same descriptor and token. Tokens are
        handed out in increasing order, so every token a guard ever held is
        below `nextToken` and differs from any token handed out later. */
    method RegisterRun(sessionId: string, runId: string) returns (r: Result<RunGuard, RegisterError>)
      requires Valid()
      modifies this
      ensures Valid()
      ensures old(sessionId in runs) <==> r.Failure?
      ensures r.Failure? ==> r.error == AlreadyRunning(sessionId) && unchanged(this)
      ensures r.Success? ==>
        && r.value.descriptor == RunDescriptor(sessionId, runId)
        && runs == old(runs)[sessionId := RunEntry(runId, r.value.token)]
        && r.value.token !in old(ActiveTokens())
        && !IsCancelled(r.value.token)
        && cancelled == old(cancelled)
    // A new token every time: its number was never handed out before, so no
    // guard of an earlier run, released or not, shares it.
    ensures r.Success? ==> r.value.token == old(nextToken) && nextToken == old(nextToken) + 1
    {
      if sessionId in runs {
        return Failure(AlreadyRunning(sessionId));
      }
      var token := nextToken;
      nextToken := nextToken + 1;
      runs := runs[sessionId := RunEntry(runId, token)];
      r := Success(RunGuard(RunDescriptor(sessionId, runId), token));
    }

    /** Dropping the guard: the guard's session leaves the table and nothing else
        changes. */
    method Release(guard: RunGuard)
      requires Valid()
      modifies this
      ensures Valid()
      ensures runs == old(runs) - {guard.descriptor.sessionId}
      ensures cancelled == old(cancelled) && nextToken == old(nextToken)
    {
      runs := runs - {guard.descriptor.sessionId};
    }

    /** `cancel_session`: for a session in the table, cancels its token and
        returns its descriptor; otherwise returns `None`. The table itself never
        changes. */
    method CancelSession(sessionId: string) returns (d: Option<RunDescriptor>)
      requires Valid()
      modifies this
      ensures Valid()
      ensures runs == old(runs) && nextToken == old(nextToken)
      ensures d.Some? <==> sessionId in runs
      ensures d.Some? ==> d.value == RunDescriptor(sessionId, runs[sessionId].runId)
      ensures cancelled == if sessionId in runs then old(cancelled) + {runs[sessionId].token} else old(cancelled)
    {
      if sessionId !in runs {
        return None;
      }
      var entry := runs[sessionId];
      cancelled := cancelled + {entry.token};
      d := Some(RunDescriptor(sessionId, entry.runId));
    }

    /** The entries of the table as (token, descriptor) pairs, each session once,
        in some order: the snapshot `cancel_all` takes under the lock. */
    method Snapshot() returns (entries: seq<(Token, RunDescriptor)>)
      ensures IsSnapshot(entries, runs)
    {
      entries := [];
      var remaining := runs.Keys;
      while remaining != {}
        invariant remaining <= runs.Keys
        invariant |entries| + |remaining| == |runs.Keys|
        invariant forall i :: 0 <= i < |entries| ==> var s := entries[i].1.sessionId;
          s in runs && s !in remaining && entries[i] == (runs[s].token, RunDescriptor(s, runs[s].runId))
        invariant forall i, j :: 0 <= i < j < |entries| ==> entries[i].1.sessionId != entries[j].1.sessionId
        invariant forall s :: s in runs && s !in remaining ==> exists i :: 0 <= i < |entries| && entries[i].1.sessionId == s
        decreases remaining
      {
        var s :| s in remaining;
        ghost var before := entries;
        entries := entries + [(runs[s].token, RunDescriptor(s, runs[s].runId))];
        forall u | u in runs && u !in remaining - {s}
          ensures exists i :: 0 <= i < |entries| && entries[i].1.sessionId == u
        {
          if u == s {
            assert entries[|before|].1.sessionId == u;
          } else {
            var i :| 0 <= i < |before| && before[i].1.sessionId == u;
            assert entries[i] == before[i];
          }
        }
        remaining := remaining - {s};
      }
    }

    /** `cancel_all`: snapshots every entry, cancels every token and returns one
        descriptor per entry, in some order. The table keeps its entries. */
    method CancelAll() returns (ds: seq<RunDescriptor>)
      requires Valid()
      modifies this
      ensures Valid()
      ensures runs == old(runs) && nextToken == old(nextToken)
      ensures cancelled == old(cancelled) + ActiveTokens()
      ensures ListsEachRunOnce(ds, runs)
    {
      var entries := Snapshot();
      var tokens := EntryTokens(entries);
      SnapshotTokens(entries, runs, tokens, nextToken);
      CancelTokens(tokens);
      ds := EntryDescriptors(entries);
      SnapshotDescriptors(entries, runs, ds);
    }

    /** The loop of `cancel_all`: cancels each of `tokens` in turn. */
    method CancelTokens(tokens: seq<Token>)
      requires Valid() && forall t :: t in tokens ==> t < nextToken
      modifies this
      ensures Valid()
      ensures runs == old(runs) && nextToken == old(nextToken)
      ensures cancelled == old(cancelled) + set t | t in tokens
    {
      var k := 0;
      while k < |tokens|
        invariant k <= |tokens|
        invariant runs == old(runs) && nextToken == old(nextToken)
        invariant Valid()
        invariant cancelled == old(cancelled) + set t | t in tokens[..k]
      {
        assert tokens[..k + 1] == tokens[..k] + [tokens[k]];
        assert tokens[k] in tokens;
        cancelled := cancelled + {tokens[k]};
        k := k + 1;
      }
      assert tokens[..k] == tokens;
    }
  }

  /** The tokens of a snapshot, in its order. */
  function EntryTokens(entries: seq<(Token, RunDescriptor)>): (r: seq<Token>)
    ensures |r| == |entries| && forall i :: 0 <= i < |r| ==> r[i] == entries[i].0
  {
    seq(|entries|, i requires 0 <= i < |entries| => entries[i].0)
  }

  /** The descriptors of a snapshot, in its order. */
  function EntryDescriptors(entries: seq<(Token, RunDescriptor)>): (r: seq<RunDescriptor>)
    ensures |r| == |entries| && forall i :: 0 <= i < |r| ==> r[i] == entries[i].1
  {
    seq(|entries|, i requires 0 <= i < |entries| => entries[i].1)
  }

  /** The tokens of the runs in a table. */
  ghost function TokensOf(runs: map<string, RunEntry>): set<Token> {
    set s | s in runs :: runs[s].token
  }

  /** `entries` lists every entry of `runs` exactly once, as (token, descriptor). */
  ghost predicate IsSnapshot(entries: seq<(Token, RunDescriptor)>, runs: map<string, RunEntry>) {
    && |entries| == |runs|
    && (forall i :: 0 <= i < |entries| ==> var s := entries[i].1.sessionId;
          s in runs && entries[i] == (runs[s].token, RunDescriptor(s, runs[s].runId)))
    && (forall i, j :: 0 <= i < j < |entries| ==> entries[i].1.sessionId != entries[j].1.sessionId)
    && (forall s :: s in runs ==> exists i :: 0 <= i < |entries| && entries[i].1.sessionId == s)
  }

  /** `ds` holds one descriptor per entry of `runs`, each session once. */
  ghost predicate ListsEachRunOnce(ds: seq<RunDescriptor>, runs: map<string, RunEntry>) {
    && |ds| == |runs|
    && (forall i :: 0 <= i < |ds| ==> ds[i].sessionId in runs && ds[i].runId == runs[ds[i].sessionId].runId)
    && (forall i, j :: 0 <= i < j < |ds| ==> ds[i].sessionId != ds[j].sessionId)
    && (forall s :: s in runs ==> exists i :: 0 <= i < |ds| && ds[i].sessionId == s)
  }

  /** The tokens of a snapshot are the tokens of the table. */
  lemma SnapshotTokens(entries: seq<(Token, RunDescriptor)>, runs: map<string, RunEntry>, tokens: seq<Token>, bound: Token)
    requires IsSnapshot(entries, runs)
    requires |tokens| == |entries| && forall i :: 0 <= i < |tokens| ==> tokens[i] == entries[i].0
    requires forall s :: s in runs ==> runs[s].token < bound
    ensures (set t | t in tokens) == TokensOf(runs)
    ensures forall t :: t in tokens ==> t < bound
  {
    forall t | t in TokensOf(runs) ensures t in tokens {
      var s :| s in runs && runs[s].token == t;
      var i :| 0 <= i < |entries| && entries[i].1.sessionId == s;
      assert tokens[i] == t;
    }
  }

  /** The descriptors of a snapshot list each run once. */
  lemma SnapshotDescriptors(entries: seq<(Token, RunDescriptor)>, runs: map<string, RunEntry>, ds: seq<RunDescriptor>)
    requires IsSnapshot(entries, runs)
    requires |ds| == |entries| && forall i :: 0 <= i < |ds| ==> ds[i] == entries[i].1
    ensures ListsEachRunOnce(ds, runs)
  {
    forall s | s in runs ensures exists i :: 0 <= i < |ds| && ds[i].sessionId == s {
      var i :| 0 <= i < |entries| && entries[i].1.sessionId == s;
      assert ds[i].sessionId == s;
    }
  }

  /** A session can hold one run at a time: a second registration fails until the
      first run's guard is released, and succeeds again afterwards. Cancelling the
      session in between reaches the first run only. */
  method RegistrationLifecycle(registry: RunRegistry, session: string)
      returns (first: Result<RunGuard, RegisterError>, second: Result<RunGuard, RegisterError>,
               cancelledRun: Option<RunDescriptor>, third: Result<RunGuard, RegisterError>)
    requires registry.Valid()
    requires session !in registry.runs
    modifies registry
    ensures registry.Valid()
    ensures first.Success? && second == Failure(AlreadyRunning(session))
    ensures cancelledRun == Some(RunDescriptor(session, "round-1"))
    ensures registry.IsCancelled(first.value.Token())
    ensures third.Success? && third.value.descriptor == RunDescriptor(session, "round-2")
    ensures first.value.Token() < third.value.Token() && !registry.IsCancelled(third.value.Token())
    ensures registry.runs == old(registry.runs)[session := RunEntry("round-2", third.value.Token())]
  {
    first := registry.RegisterRun(session, "round-1");
    second := registry.RegisterRun(session, "round-2");
    cancelledRun := registry.CancelSession(session);
    registry.Release(first.value);
    third := registry.RegisterRun(session, "round-2");
  }
}
