/** The proxy's connection log: a slice of a growing backing array, cut at the front to the
    newest entries, and snapshots that are copies. */
module ConnLog {

  /** The newest `max` entries of a history. */
  function Newest<T>(history: seq<T>, max: nat): seq<T> {
    if |history| <= max then history else history[|history| - max..]
  }

  /** Appending to the newest entries and dropping the overflow gives the newest of the longer
      history. */
  lemma NewestGrows<T>(history: seq<T>, entry: T, max: nat)
    ensures var longer := Newest(history, max) + [entry];
            Newest(history + [entry], max) == if |longer| > max then longer[|longer| - max..] else longer
  {
  }

  /** `connLog` is the slice data[start..start+len]; appending writes behind it while the array
      has room and moves to a new array otherwise, as Go's append does. */
  class Log<T(0)> {
    const maxLogSize: nat
    var data: array<T>
    var start: nat
    var len: nat
    ghost var history: seq<T>

    ghost predicate Valid()
      reads this, data
    {
      && start + len <= data.Length
      && data[start..start + len] == Newest(history, maxLogSize)
    }

    constructor (maxLogSize: nat)
      ensures Valid() && history == [] && this.maxLogSize == maxLogSize && fresh(data)
    {
      this.maxLogSize := maxLogSize;
      data, start, len, history := new T[0], 0, 0, [];
    }

    /** append: in place when there is room, else into a new array. */
    method Append(entry: T)
      requires start + len <= data.Length
      modifies this`data, this`start, this`len, data
      ensures start + len <= data.Length && len == old(len) + 1
      ensures data[start..start + len] == old(data[start..start + len]) + [entry]
      ensures data == old(data) || fresh(data)
    {
      if start + len == data.Length {
        var bigger := new T[2 * len + 1];
        forall i | 0 <= i < len {
          bigger[i] := data[start + i];
        }
        assert bigger[..len] == data[start..start + len];
        data, start := bigger, 0;
      }
      data[start + len] := entry;
      len := len + 1;
      assert data[start..start + len] == data[start..start + len - 1] + [data[start + len - 1]];
    }

    /** Reslicing drops the first `k` entries. */
    method Cut(k: nat)
      requires k <= len && start + len <= data.Length
      modifies this`start, this`len
      ensures start + len == old(start + len) && len == old(len) - k
      ensures data[start..start + len] == old(data[start..start + len])[k..]
    {
      start, len := start + k, len - k;
    }

    /** addConnLog: after it the log is exactly the newest entries of the whole history. */
    method AddConnLog(entry: T)
      requires Valid()
      modifies this`data, this`start, this`len, this`history, data
      ensures Valid() && history == old(history) + [entry]
      ensures data == old(data) || fresh(data)
    {
      NewestGrows(history, entry, maxLogSize);
      Append(entry);
      history := history + [entry];
      if len > maxLogSize {
        Cut(len - maxLogSize);
      }
    }

    /** GetConnLogs: a copy in an array of its own. */
    method GetConnLogs() returns (logs: array<T>)
      requires Valid()
      ensures fresh(logs) && logs != data
      ensures logs[..] == Newest(history, maxLogSize)
    {
      logs := new T[len];
      forall i | 0 <= i < len {
        logs[i] := data[start + i];
      }
      assert logs[..] == data[start..start + len];
    }
  }

  method AddMany<T(0)>(log: Log<T>, entries: seq<T>)
    requires log.Valid()
    modifies log, log.data
    ensures log.Valid() && log.history == old(log.history) + entries
    ensures log.data == old(log.data) || fresh(log.data)
  {
    for i := 0 to |entries|
      invariant log.Valid() && log.history == old(log.history) + entries[..i]
      invariant log.data == old(log.data) || fresh(log.data)
    {
      log.AddConnLog(entries[i]);
    }
  }

  /** After any additions the log is the newest entries of everything added, and a snapshot taken
      on the way still shows what was newest then. */
  method SnapshotsStand<T(0)>(max: nat, before: seq<T>, after: seq<T>) returns (snapshot: array<T>, last: array<T>)
    ensures snapshot[..] == Newest(before, max)
    ensures last[..] == Newest(before + after, max)
  {
    var log := new Log<T>(max);
    AddMany(log, before);
    snapshot := log.GetConnLogs();
    AddMany(log, after);
    assert log.history == before + after;
    last := log.GetConnLogs();
  }
}
