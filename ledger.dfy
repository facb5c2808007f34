/**
 * The tracking ledger: an append-only log of lifecycle events, one entry
 * per transition, keyed by tracking identifier.
 */
module Ledger {
  import opened Clock

  /**
   * One immutable ledger record. Its human-readable `details` field is
   * always derived from `status` when the entry is written, so it is
   * given here as a function of the status. `logTracking(trackingId,
   * status)` at time `now` writes `LedgerEntry(trackingId, status, now)`.
   */
  datatype LedgerEntry = LedgerEntry(trackingId: string, status: string, createdAt: Timestamp) {
    function Details(): string {
      DetailsOf(status)
    }
  }

  /**
   * `String.prototype.split` with a one-character separator: the pieces
   * between separators, always at least one (the empty string yields [""]).
   */
  function Split(s: string, sep: char): (parts: seq<string>)
    ensures |parts| >= 1
    ensures forall i :: 0 <= i < |parts| ==> sep !in parts[i]
  {
    if s == [] then [""]
    else
      var rest := Split(s[1..], sep);
      if s[0] == sep then [""] + rest
      else [[s[0]] + rest[0]] + rest[1..]
  }

  /** `Array.prototype.join` with a one-character separator. */
  function Join(parts: seq<string>, sep: char): string {
    if |parts| == 0 then ""
    else if |parts| == 1 then parts[0]
    else parts[0] + [sep] + Join(parts[1..], sep)
  }

  /** The reference definition: every `from` replaced by `to`, position by position. */
  function Replace(s: string, from: char, to: char): string {
    seq(|s|, i requires 0 <= i < |s| => if s[i] == from then to else s[i])
  }

  /** Splitting on one character and joining on another replaces that character. */
  lemma {:induction false} JoinSplitIsReplace(s: string, from: char, to: char)
    ensures Join(Split(s, from), to) == Replace(s, from, to)
  {
    if s != [] {
      var rest := Split(s[1..], from);
      JoinSplitIsReplace(s[1..], from, to);
      assert Replace(s, from, to) == [if s[0] == from then to else s[0]] + Replace(s[1..], from, to);
      if s[0] == from {
        assert Split(s, from) == [""] + rest;
      } else {
        var parts := [[s[0]] + rest[0]] + rest[1..];
        assert Split(s, from) == parts;
        if |rest| == 1 {
          assert Join(parts, to) == [s[0]] + Join(rest, to);
        } else {
          assert rest == [rest[0]] + rest[1..];
          assert Join(rest, to) == rest[0] + [to] + Join(rest[1..], to);
          assert Join(parts, to) == [s[0]] + Join(rest, to);
        }
      }
    }
  }

  /** Joining the pieces back with the same separator restores the string. */
  lemma JoinSplitRoundTrip(s: string, sep: char)
    ensures Join(Split(s, sep), sep) == s
  {
    JoinSplitIsReplace(s, sep, sep);
  }

  /**
   * The human-readable detail of a status token: `status.split('_').join(' ')`.
   * It has the same length, holds no underscore, differs from the token
   * only where the token has an underscore, and equals the token when it
   * has none.
   */
  function DetailsOf(status: string): (d: string)
    ensures |d| == |status|
    ensures '_' !in d
    ensures forall i :: 0 <= i < |status| ==> d[i] == if status[i] == '_' then ' ' else status[i]
    ensures '_' !in status ==> d == status
  {
    JoinSplitIsReplace(status, '_', ' ');
    Join(Split(status, '_'), ' ')
  }

  /** The entries of one tracking identifier, in the order they were written. */
  function History(log: seq<LedgerEntry>, trackingId: string): seq<LedgerEntry> {
    if log == [] then []
    else
      var last := log[|log| - 1];
      History(log[..|log| - 1], trackingId) + (if last.trackingId == trackingId then [last] else [])
  }

  /** The history holds exactly the entries of the log that carry the identifier. */
  lemma {:induction false} HistoryMembers(log: seq<LedgerEntry>, trackingId: string)
    ensures forall e :: e in History(log, trackingId) <==> e in log && e.trackingId == trackingId
  {
    if log != [] {
      HistoryMembers(log[..|log| - 1], trackingId);
      assert log == log[..|log| - 1] + [log[|log| - 1]];
    }
  }

  /** A log whose entries all carry the identifier is its own history. */
  lemma {:induction false} HistoryOfOwnEntries(log: seq<LedgerEntry>, trackingId: string)
    requires forall i :: 0 <= i < |log| ==> log[i].trackingId == trackingId
    ensures History(log, trackingId) == log
  {
    if log != [] {
      HistoryOfOwnEntries(log[..|log| - 1], trackingId);
    }
  }

  /** The status tokens of a sequence of entries. */
  function Statuses(h: seq<LedgerEntry>): seq<string> {
    seq(|h|, i requires 0 <= i < |h| => h[i].status)
  }

  /** Appending an entry extends the history of its own identifier only. */
  lemma HistoryAppend(log: seq<LedgerEntry>, e: LedgerEntry, trackingId: string)
    ensures History(log + [e], trackingId)
         == History(log, trackingId) + (if e.trackingId == trackingId then [e] else [])
  {
    assert (log + [e])[..|log|] == log;
  }
}
