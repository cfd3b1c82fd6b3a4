/**
 * The callback's `history`: a dictionary from metric name to the list of
 * values recorded for it, one value per batch. The applied learning rate is
 * recorded under "lr"; every entry of the batch's `logs` dictionary is
 * recorded under its own name. Lists are only ever appended to.
 */
module SgdrHistory {

  type History = map<string, seq<real>>

  /** The key under which the applied learning rate is recorded. */
  const LrKey: string := "lr"

  /** `history.setdefault(key, [])`: the list recorded so far under `key`. */
  function Entry(h: History, key: string): seq<real>
  {
    if key in h then h[key] else []
  }

  /**
   * The history after one batch: the applied rate `lr` appended under "lr",
   * then each logged value appended under its own name. Keys of a dictionary
   * are distinct, so the order in which `logs` is walked does not matter.
   */
  function Recorded(h: History, lr: real, logs: map<string, real>): (r: History)
    ensures r.Keys == h.Keys + logs.Keys + {LrKey}
  {
    map k | k in h.Keys + logs.Keys + {LrKey} ::
      Entry(h, k) + (if k == LrKey then [lr] else []) + (if k in logs then [logs[k]] else [])
  }

  /**
   * The history is append-only: each list keeps its old values as a prefix
   * and grows by one value for the rate (under "lr") and one for each logged
   * metric; the rate comes first, a logged value with the same name last.
   */
  lemma RecordedAppends(h: History, lr: real, logs: map<string, real>, k: string)
    ensures var e := Entry(Recorded(h, lr, logs), k);
            && Entry(h, k) <= e
            && |e| == |Entry(h, k)| + (if k == LrKey then 1 else 0) + (if k in logs then 1 else 0)
            && (k == LrKey ==> e[|Entry(h, k)|] == lr)
            && (k in logs ==> e[|e| - 1] == logs[k])
  {
  }

  /** Keys that are neither "lr" nor logged keep their old history. */
  lemma RecordedLeavesOthers(h: History, lr: real, logs: map<string, real>, k: string)
    requires k != LrKey && k !in logs
    ensures Entry(Recorded(h, lr, logs), k) == Entry(h, k)
  {
    assert Entry(h, k) + [] + [] == Entry(h, k);
  }

  /** With no "lr" in the logs, the rate history grows by exactly the applied rate. */
  lemma RecordedRate(h: History, lr: real, logs: map<string, real>)
    ensures LrKey !in logs ==> Entry(Recorded(h, lr, logs), LrKey) == Entry(h, LrKey) + [lr]
  {
    assert Entry(h, LrKey) + [lr] + [] == Entry(h, LrKey) + [lr];
  }

  /** Recording with empty logs touches only the rate history. */
  lemma RecordedNoLogs(h: History, lr: real)
    ensures Recorded(h, lr, map[]) == h[LrKey := Entry(h, LrKey) + [lr]]
  {
    var r, e := Recorded(h, lr, map[]), h[LrKey := Entry(h, LrKey) + [lr]];
    forall k | k in r
      ensures r[k] == e[k]
    {
      assert Entry(h, k) + [] == Entry(h, k);
    }
  }

  /** Recording one more logged value appends it under its key and changes nothing else. */
  lemma RecordedOneMore(h: History, lr: real, done: map<string, real>, k: string, v: real)
    requires k !in done
    ensures var r := Recorded(h, lr, done);
            r[k := Entry(r, k) + [v]] == Recorded(h, lr, done[k := v])
  {
    var r := Recorded(h, lr, done);
    var a, b := r[k := Entry(r, k) + [v]], Recorded(h, lr, done[k := v]);
    forall j | j in a
      ensures a[j] == b[j]
    {
      if j == k {
        assert Entry(r, k) == Entry(h, k) + (if k == LrKey then [lr] else []);
      }
    }
  }

  /**
   * The recording step of `on_batch_end`: append the rate, then walk `logs` and
   * append each value under its key.
   */
  method RecordBatch(h: History, lr: real, logs: map<string, real>) returns (r: History)
    ensures r == Recorded(h, lr, logs)
  {
    r := h[LrKey := Entry(h, LrKey) + [lr]];
    var pending := logs.Keys;
    RecordedNoLogs(h, lr);
    assert logs - pending == map[];
    while pending != {}
      invariant pending <= logs.Keys
      invariant r == Recorded(h, lr, logs - pending)
      decreases pending
    {
      var k :| k in pending;
      ghost var done := logs - pending;
      RecordedOneMore(h, lr, done, k, logs[k]);
      r := r[k := Entry(r, k) + [logs[k]]];
      pending := pending - {k};
      assert logs - pending == done[k := logs[k]];
    }
    assert logs - pending == logs;
  }
}
