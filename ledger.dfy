/** The price-level ledger (`activePrices`) and the append-only update log
    (`priceLevelUpdates`) it is rebuilt from. A log entry records the volume
    at its price right after the update, so folding the log over a ledger
    is last-write-wins per price. */
module Ledger {
  import opened Types

  /** The ledger entry a log entry leaves behind. */
  function LevelOf(e: LogEntry): Level
  {
    Level(e.volume, e.isBid)
  }

  /** The prices a list of log entries touches. */
  function PricesOf(es: seq<LogEntry>): set<int>
  {
    set e | e in es :: e.price
  }

  /** Folds `es`, in order, over the ledger `m`; each entry overwrites its price. */
  function ApplyEntries(m: map<int, Level>, es: seq<LogEntry>): (r: map<int, Level>)
    ensures r.Keys == m.Keys + PricesOf(es)
  {
    if es == [] then m
    else
      var last := es[|es| - 1];
      assert PricesOf(es) == PricesOf(es[..|es| - 1]) + {last.price} by {
        assert es == es[..|es| - 1] + [last];
      }
      ApplyEntries(m, es[..|es| - 1])[last.price := LevelOf(last)]
  }

  /** The ledger a log describes: for each price, its last logged entry. */
  function LastWriteWins(log: seq<LogEntry>): map<int, Level>
  {
    ApplyEntries(map[], log)
  }

  /** The entries stamped at or before `t`, in log order. */
  function Before(log: seq<LogEntry>, t: real): seq<LogEntry>
  {
    if log == [] then []
    else
      var init, last := log[..|log| - 1], log[|log| - 1];
      if last.timestamp as real <= t then Before(init, t) + [last] else Before(init, t)
  }

  /** The entries stamped after `t`, in log order. */
  function After(log: seq<LogEntry>, t: real): seq<LogEntry>
  {
    if log == [] then []
    else
      var init, last := log[..|log| - 1], log[|log| - 1];
      if last.timestamp as real > t then After(init, t) + [last] else After(init, t)
  }

  /** `Before` keeps exactly the entries stamped at or before `t`. */
  lemma {:induction false} BeforeMembers(log: seq<LogEntry>, t: real)
    ensures forall e :: e in Before(log, t) <==> e in log && e.timestamp as real <= t
    decreases |log|
  {
    if log != [] {
      var init, last := log[..|log| - 1], log[|log| - 1];
      BeforeMembers(init, t);
      assert log == init + [last];
    }
  }

  /** `After` keeps exactly the entries stamped after `t`. */
  lemma {:induction false} AfterMembers(log: seq<LogEntry>, t: real)
    ensures forall e :: e in After(log, t) <==> e in log && e.timestamp as real > t
    decreases |log|
  {
    if log != [] {
      var init, last := log[..|log| - 1], log[|log| - 1];
      AfterMembers(init, t);
      assert log == init + [last];
    }
  }

  /** Timestamps never decrease along the log. */
  predicate TimeSorted(log: seq<LogEntry>)
  {
    forall j, k :: 0 <= j < k < |log| ==> log[j].timestamp <= log[k].timestamp
  }

  /** No ledger entry holds a negative volume. */
  predicate NonNegative(m: map<int, Level>)
  {
    forall p :: p in m ==> m[p].volume >= 0
  }

  /** Folding two lists one after the other is folding their concatenation. */
  lemma {:induction false} ApplyEntriesConcat(m: map<int, Level>, a: seq<LogEntry>, b: seq<LogEntry>)
    ensures ApplyEntries(m, a + b) == ApplyEntries(ApplyEntries(m, a), b)
    decreases |b|
  {
    if b == [] {
      assert a + b == a;
    } else {
      var init, last := b[..|b| - 1], b[|b| - 1];
      assert (a + b)[..|a + b| - 1] == a + init;
      assert (a + b)[|a + b| - 1] == last;
      ApplyEntriesConcat(m, a, init);
    }
  }

  /** Folding one more entry overwrites its price and nothing else. */
  lemma ApplyEntriesAppend(m: map<int, Level>, es: seq<LogEntry>, e: LogEntry)
    ensures ApplyEntries(m, es + [e]) == ApplyEntries(m, es)[e.price := LevelOf(e)]
  {
    assert (es + [e])[..|es + [e]| - 1] == es;
  }

  /** Appending an entry to the log overwrites its price and nothing else. */
  lemma LastWriteWinsAppend(log: seq<LogEntry>, e: LogEntry)
    ensures LastWriteWins(log + [e]) == LastWriteWins(log)[e.price := LevelOf(e)]
  {
    ApplyEntriesAppend(map[], log, e);
  }

  /** Folding a list over a ledger overrides the ledger with the list's own
      last-write-wins view, price by price. */
  lemma {:induction false} ApplyEntriesOverride(m: map<int, Level>, es: seq<LogEntry>)
    ensures ApplyEntries(m, es) == m + LastWriteWins(es)
    decreases |es|
  {
    if es != [] {
      ApplyEntriesOverride(m, es[..|es| - 1]);
    }
  }

  /** A price is in the last-write-wins ledger exactly when some entry logs
      it, and then it holds what the last such entry logged. */
  lemma {:induction false} LastWriteWinsLast(log: seq<LogEntry>, k: int)
    requires 0 <= k < |log|
    requires forall j :: k < j < |log| ==> log[j].price != log[k].price
    ensures log[k].price in LastWriteWins(log)
    ensures LastWriteWins(log)[log[k].price] == LevelOf(log[k])
    decreases |log|
  {
    if k < |log| - 1 {
      LastWriteWinsLast(log[..|log| - 1], k);
    }
  }

  /** A price no entry logs is absent from the last-write-wins ledger. */
  lemma {:induction false} LastWriteWinsAbsent(log: seq<LogEntry>, p: int)
    requires forall j :: 0 <= j < |log| ==> log[j].price != p
    ensures p !in LastWriteWins(log)
    decreases |log|
  {
    if log != [] {
      LastWriteWinsAbsent(log[..|log| - 1], p);
    }
  }

  /** If every logged volume is non-negative, so is every ledger volume. */
  lemma {:induction false} LastWriteWinsNonNegative(log: seq<LogEntry>)
    requires forall j :: 0 <= j < |log| ==> log[j].volume >= 0
    ensures NonNegative(LastWriteWins(log))
    decreases |log|
  {
    if log != [] {
      LastWriteWinsNonNegative(log[..|log| - 1]);
    }
  }

  lemma {:induction false} AfterEmpty(log: seq<LogEntry>, t: real)
    requires forall j :: 0 <= j < |log| ==> log[j].timestamp as real <= t
    ensures After(log, t) == []
    decreases |log|
  {
    if log != [] {
      AfterEmpty(log[..|log| - 1], t);
    }
  }

  /** A prefix of a sorted log is sorted. */
  lemma SortedPrefix(log: seq<LogEntry>, n: nat)
    requires TimeSorted(log) && n <= |log|
    ensures TimeSorted(log[..n])
  {
    forall j, k | 0 <= j < k < n ensures log[..n][j].timestamp <= log[..n][k].timestamp {
      assert log[..n][j] == log[j] && log[..n][k] == log[k];
    }
  }

  /** On a sorted log, the entries up to `t` come first and the later ones after them. */
  lemma {:induction false} SortedSplit(log: seq<LogEntry>, t: real)
    requires TimeSorted(log)
    ensures log == Before(log, t) + After(log, t)
    decreases |log|
  {
    if log != [] {
      var init := log[..|log| - 1];
      SortedPrefix(log, |log| - 1);
      SortedSplit(init, t);
      if log[|log| - 1].timestamp as real <= t {
        SortedUpTo(log, t);
      }
      SplitStep(log, t);
    }
  }

  /** In a sorted log whose last entry is stamped at or before `t`, no
      earlier entry is stamped after `t`. */
  lemma SortedUpTo(log: seq<LogEntry>, t: real)
    requires TimeSorted(log) && log != [] && log[|log| - 1].timestamp as real <= t
    ensures After(log[..|log| - 1], t) == []
  {
    var init := log[..|log| - 1];
    forall j | 0 <= j < |init| ensures init[j].timestamp as real <= t {
      assert init[j] == log[j];
    }
    AfterEmpty(init, t);
  }

  /** The step of `SortedSplit`: splitting the last entry off. */
  lemma SplitStep(log: seq<LogEntry>, t: real)
    requires log != []
    requires var init := log[..|log| - 1]; init == Before(init, t) + After(init, t)
    requires log[|log| - 1].timestamp as real <= t ==> After(log[..|log| - 1], t) == []
    ensures log == Before(log, t) + After(log, t)
  {
    var init, last := log[..|log| - 1], log[|log| - 1];
    assert log == init + [last];
  }

  /** Rebuilding from a sorted log: the baseline at `t` followed by the later
      entries gives the ledger of the whole log. */
  lemma ReplayIsLastWriteWins(log: seq<LogEntry>, t: real)
    requires TimeSorted(log)
    ensures ApplyEntries(LastWriteWins(Before(log, t)), After(log, t)) == LastWriteWins(log)
  {
    SortedSplit(log, t);
    ApplyEntriesConcat(map[], Before(log, t), After(log, t));
  }

  /** Appending an entry stamped no earlier than the whole log keeps it sorted. */
  lemma SortedAppend(log: seq<LogEntry>, e: LogEntry)
    requires TimeSorted(log)
    requires forall j :: 0 <= j < |log| ==> log[j].timestamp <= e.timestamp
    ensures TimeSorted(log + [e])
  {
  }
}
