/** The Postgres client, seen from the benchmark: every call sends one command, and
    the server may answer with an error. */
module Database {
  import opened Statements

  /** The plain statements sent with `simple_query`. */
  datatype AdminQuery =
    | CreateTableIfNotExists  // CREATE TABLE IF NOT EXISTS power_generation (...)
    | Truncate           // TRUNCATE TABLE power_generation
    | DisableAutovacuum  // ALTER TABLE power_generation SET (autovacuum_enabled = false)
    | Checkpoint         // CHECKPOINT
    | Begin              // BEGIN
    | Commit             // COMMIT

  /** What `execute` is given: statement text, or a statement prepared earlier. */
  datatype Target = Unprepared(stmt: Statement) | Prepared(stmt: Statement)

  datatype CopyFormat =
    | Text    // COPY power_generation FROM STDIN
    | Binary  // COPY power_generation FROM STDIN WITH (FORMAT binary)

  /** One call into the driver. */
  datatype Cmd =
    | SimpleQuery(query: AdminQuery)
    | Prepare(stmt: Statement)
    | Execute(target: Target, params: seq<SqlValue>)
    | CopyIn(format: CopyFormat)
    | WriteRow(fields: seq<SqlValue>)
    | Finish

  /** No command sent at positions `at` to `at + n - 1` of the log fails. */
  predicate AllSucceed(n: nat, at: nat, failures: set<nat>)
  {
    forall i :: at <= i < at + n ==> i !in failures
  }

  /** How many of `n` commands sent in turn from log position `at` reach the server
      when each caller gives up at the first error: up to and including that error. */
  function SentCount(n: nat, at: nat, failures: set<nat>): (k: nat)
    ensures k <= n
    decreases n
  {
    if n == 0 then 0 else if at in failures then 1 else 1 + SentCount(n - 1, at + 1, failures)
  }

  /** What actually reaches the server when the commands `cmds` are sent in turn from
      log position `at`: the commands up to and including the first one that fails. */
  function Issued(cmds: seq<Cmd>, at: nat, failures: set<nat>): seq<Cmd>
  {
    cmds[..SentCount(|cmds|, at, failures)]
  }

  /** The positions of `a + b` all succeed iff those of `a` and then those of `b` do. */
  lemma {:induction false} AllSucceedAppend(na: nat, nb: nat, at: nat, failures: set<nat>)
    ensures AllSucceed(na + nb, at, failures) <==>
      AllSucceed(na, at, failures) && AllSucceed(nb, at + na, failures)
  {
  }

  /** Without an error every command is sent; otherwise the count stops at the first
      failing position. */
  lemma {:induction false} SentCountSpec(n: nat, at: nat, failures: set<nat>)
    ensures AllSucceed(n, at, failures) ==> SentCount(n, at, failures) == n
    ensures !AllSucceed(n, at, failures) ==>
      var k := SentCount(n, at, failures);
      0 < k && at + k - 1 in failures && AllSucceed(k - 1, at, failures)
    decreases n
  {
    if n > 0 && at !in failures {
      SentCountSpec(n - 1, at + 1, failures);
      AllSucceedAppend(1, n - 1, at, failures);
      if !AllSucceed(n - 1, at + 1, failures) {
        AllSucceedAppend(1, SentCount(n - 1, at + 1, failures) - 1, at, failures);
      }
    }
  }

  /** `Issued` is a prefix of what was meant to be sent; all of it when nothing fails,
      and otherwise it ends with the first command that fails and only that one fails. */
  lemma {:induction false} IssuedSpec(cmds: seq<Cmd>, at: nat, failures: set<nat>)
    ensures Issued(cmds, at, failures) <= cmds
    ensures AllSucceed(|cmds|, at, failures) ==> Issued(cmds, at, failures) == cmds
    ensures !AllSucceed(|cmds|, at, failures) ==>
      var sent := Issued(cmds, at, failures);
      sent != [] && at + |sent| - 1 in failures && AllSucceed(|sent| - 1, at, failures)
  {
    SentCountSpec(|cmds|, at, failures);
  }

  /** Counting over `a + b`: `b` is reached only when all of `a` succeeds. */
  lemma {:induction false} SentCountAppend(na: nat, nb: nat, at: nat, failures: set<nat>)
    ensures SentCount(na + nb, at, failures) ==
      if AllSucceed(na, at, failures) then na + SentCount(nb, at + na, failures) else SentCount(na, at, failures)
    decreases na
  {
    if na > 0 {
      AllSucceedAppend(1, na - 1, at, failures);
      if at !in failures {
        SentCountAppend(na - 1, nb, at + 1, failures);
      }
    }
  }

  /** Sending `a` and then `b`: `b` is reached only when all of `a` succeeds. */
  lemma {:induction false} IssuedAppend(a: seq<Cmd>, b: seq<Cmd>, at: nat, failures: set<nat>)
    ensures Issued(a + b, at, failures) ==
      if AllSucceed(|a|, at, failures) then a + Issued(b, at + |a|, failures) else Issued(a, at, failures)
    ensures AllSucceed(|a + b|, at, failures) <==>
      AllSucceed(|a|, at, failures) && AllSucceed(|b|, at + |a|, failures)
  {
    AllSucceedAppend(|a|, |b|, at, failures);
    SentCountAppend(|a|, |b|, at, failures);
    var k := SentCount(|a + b|, at, failures);
    if AllSucceed(|a|, at, failures) {
      assert (a + b)[..k] == a + b[..k - |a|];
    } else {
      assert (a + b)[..k] == a[..k];
    }
  }

  /** The driver's client. `log` is every command sent so far, in order; the server
      reports an error for the commands at the log positions in `failures`. */
  class Client {
    var log: seq<Cmd>
    const failures: set<nat>

    constructor (failures: set<nat>)
      ensures log == [] && this.failures == failures
    {
      log := [];
      this.failures := failures;
    }

    /** Send one command; `ok` is false when the server answers with an error. */
    method Send(c: Cmd) returns (ok: bool)
      modifies this
      ensures log == old(log) + [c]
      ensures ok <==> |old(log)| !in failures
    {
      ok := |log| !in failures;
      log := log + [c];
    }
  }

  /** Send the next command `c` of a plan. The caller's bookkeeping: `plan` is the
      whole sequence it means to send from position `|log0|`, and `todo` what is left
      of it, so that the log so far followed by `todo` is `log0 + plan`. On an error
      the log is `log0` followed by what `Issued` says reaches the server. */
  method Perform(client: Client, c: Cmd, ghost log0: seq<Cmd>, ghost plan: seq<Cmd>, ghost todo: seq<Cmd>)
    returns (ok: bool)
    requires |log0| <= |client.log| && client.log + todo == log0 + plan
    requires todo != [] && todo[0] == c
    requires AllSucceed(|client.log| - |log0|, |log0|, client.failures)
    modifies client
    ensures client.log == old(client.log) + [c]
    ensures client.log + todo[1..] == log0 + plan
    ensures ok <==> |old(client.log)| !in client.failures
    ensures ok ==> AllSucceed(|client.log| - |log0|, |log0|, client.failures)
    ensures !ok ==>
      client.log == log0 + Issued(plan, |log0|, client.failures)
      && !AllSucceed(|plan|, |log0|, client.failures)
  {
    ghost var done := client.log[|log0|..];
    assert (client.log + todo)[..|log0|] == client.log[..|log0|];
    assert (log0 + plan)[..|log0|] == log0;
    assert client.log == client.log[..|log0|] + done;
    assert client.log == log0 + done;
    assert (log0 + done) + todo == log0 + (done + todo);
    assert (log0 + plan)[|log0|..] == plan;
    assert (log0 + (done + todo))[|log0|..] == done + todo;
    assert plan == done + todo;
    ok := client.Send(c);
    assert todo == [c] + todo[1..];
    assert client.log + todo[1..] == log0 + plan;
    if !ok {
      IssuedAppend(done, todo, |log0|, client.failures);
      IssuedAppend([c], todo[1..], |log0| + |done|, client.failures);
      assert Issued([c], |log0| + |done|, client.failures) == [c];
    }
  }
}
