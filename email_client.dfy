/**
 * The mail client (email_client.py): the credential guards of login and send, and the
 * snapshot / new-message state machine that `email_trigger` runs over the watched folders.
 *
 * SMTP and IMAP are replaced by their outcomes: a login check passes or fails with a
 * message; a folder, when the poll selects it, is lost (the connection dropped), refuses
 * the select, answers the search with something other than OK, or lists its message ids; a
 * fetch returns a message, returns something other than OK, or raises. Header decoding and
 * body extraction are not modelled: a fetched message arrives with its subject header,
 * sender and body already decoded.
 */
module EmailClient {
  import opened Wrappers

  /** An IMAP message id as the search returns it (a byte string such as b'17'). */
  type MsgId = seq<bv8>

  /** The folders watched, in the order each poll visits them (email_client.py:95). */
  const Folders: seq<string> := ["INBOX", "Junk E-mail"]

  /** A fetched message, already decoded. */
  datatype RawMessage = RawMessage(subjectHeader: Option<string>, sender: Option<string>, body: string)

  /** The outcome of fetching one id: OK with the message, another status, or an exception. */
  datatype FetchOutcome = FetchOk(message: RawMessage) | FetchNotOk | FetchRaised

  /** What one poll sees of one folder. */
  datatype FolderView =
    | Lost                         // select or search raised: the connection is gone
    | SelectFailed                 // select did not answer OK
    | SearchNotOk                  // search did not answer OK
    | Listing(ids: set<MsgId>)     // search answered OK with these ids (possibly none)

  /**
   * One yielded message. The source yields folder, sender, subject and body; the model
   * also carries the id it was fetched under so that contracts can speak about it.
   */
  datatype MailEvent = MailEvent(folder: string, id: MsgId, sender: Option<string>, subject: string, body: string)

  /** The outcome of one of the login checks. */
  datatype CheckResult = Passed | Failed(error: string)

  /** The message `email_send` hands to SMTP, with the credentials it authenticates with. */
  datatype OutgoingEmail = OutgoingEmail(from: string, to: string, subject: string, body: string,
                                         username: string, password: string)

  /** The ids a folder view contributes: the listing, or none when the search was not OK (email_client.py:120-122). */
  function CurrentIds(view: FolderView): set<MsgId>
  {
    if view.Listing? then view.ids else {}
  }

  /** The subject a yielded message carries (email_client.py:146-157). */
  function SubjectOf(header: Option<string>): string
  {
    if header.Some? && header.value != "" then header.value else "(No Subject)"
  }

  /** The record yielded for message `id` of `folder`. */
  function EventOf(folder: string, id: MsgId, m: RawMessage): MailEvent
  {
    MailEvent(folder, id, m.sender, SubjectOf(m.subjectHeader), m.body)
  }

  /** A message with no subject header, or an empty one, is yielded with "(No Subject)"; any other keeps its own. */
  lemma MissingSubject(folder: string, id: MsgId, m: RawMessage)
    ensures var e := EventOf(folder, id, m);
      && (m.subjectHeader.None? || m.subjectHeader == Some("") <==> e.subject == "(No Subject)" && m.subjectHeader != Some("(No Subject)"))
      && (m.subjectHeader.Some? && m.subjectHeader.value != "" ==> e.subject == m.subjectHeader.value)
      && e.folder == folder && e.id == id && e.sender == m.sender && e.body == m.body
  {
  }

  /**
   * A folder's known ids after a poll that did not lose the connection while on it: unchanged
   * when the select failed, the snapshot on the first run, and grown by the new ids later.
   */
  function NextKnown(known: set<MsgId>, firstRun: bool, view: FolderView): set<MsgId>
  {
    if view.Lost? || view.SelectFailed? then known
    else if firstRun then CurrentIds(view)
    else known + (CurrentIds(view) - known)
  }

  /** After the first run the known ids of a folder never shrink, and grow by at most what was listed. */
  lemma KnownNeverShrinks(known: set<MsgId>, view: FolderView)
    ensures known <= NextKnown(known, false, view) <= known + CurrentIds(view)
  {
  }

  /** The ids of a list of events. */
  function IdsOf(events: seq<MailEvent>): set<MsgId>
  {
    set i | 0 <= i < |events| :: events[i].id
  }

  /** The (folder, id) pairs of a list of events. */
  function PairsOf(events: seq<MailEvent>): set<(string, MsgId)>
  {
    set i | 0 <= i < |events| :: (events[i].folder, events[i].id)
  }

  /** No id is yielded twice. */
  predicate DistinctIds(events: seq<MailEvent>)
  {
    forall i, j :: 0 <= i < j < |events| ==> events[i].id != events[j].id
  }

  /** No (folder, id) is yielded twice. */
  predicate DistinctPairs(events: seq<MailEvent>)
  {
    forall i, j :: 0 <= i < j < |events| ==> (events[i].folder, events[i].id) != (events[j].folder, events[j].id)
  }

  lemma IdsOfAppend(events: seq<MailEvent>, e: MailEvent)
    ensures IdsOf(events + [e]) == IdsOf(events) + {e.id}
    ensures PairsOf(events + [e]) == PairsOf(events) + {(e.folder, e.id)}
  {
    var s := events + [e];
    assert s[|events|] == e;
    forall x | x in IdsOf(events) ensures x in IdsOf(s) {
      var i :| 0 <= i < |events| && events[i].id == x;
      assert s[i] == events[i];
    }
    forall p | p in PairsOf(events) ensures p in PairsOf(s) {
      var i :| 0 <= i < |events| && (events[i].folder, events[i].id) == p;
      assert s[i] == events[i];
    }
  }

  /** The ids of the events that came from `folder`. */
  function FolderIds(events: seq<MailEvent>, folder: string): set<MsgId>
  {
    set i | 0 <= i < |events| && events[i].folder == folder :: events[i].id
  }

  /** The ids a later poll reports for a folder: the new ones whose fetch is OK. */
  function Reported(folder: string, known: set<MsgId>, view: FolderView, fetch: (string, MsgId) -> FetchOutcome): set<MsgId>
  {
    set id | id in CurrentIds(view) - known && fetch(folder, id).FetchOk?
  }

  /** Splitting a list of events splits the ids of each folder. */
  lemma FolderIdsAppend(a: seq<MailEvent>, b: seq<MailEvent>, folder: string)
    ensures FolderIds(a + b, folder) == FolderIds(a, folder) + FolderIds(b, folder)
  {
    var s := a + b;
    forall x | x in FolderIds(s, folder) ensures x in FolderIds(a, folder) + FolderIds(b, folder) {
      var i :| 0 <= i < |s| && s[i].folder == folder && s[i].id == x;
      if i >= |a| {
        assert b[i - |a|] == s[i];
      }
    }
    forall x | x in FolderIds(a, folder) + FolderIds(b, folder) ensures x in FolderIds(s, folder) {
      if x in FolderIds(a, folder) {
        var i :| 0 <= i < |a| && a[i].folder == folder && a[i].id == x;
        assert s[i] == a[i];
      } else {
        var i :| 0 <= i < |b| && b[i].folder == folder && b[i].id == x;
        assert s[|a| + i] == b[i];
      }
    }
  }

  /** Events that all come from one folder contribute their ids to it and nothing to any other. */
  lemma FolderIdsOne(events: seq<MailEvent>, folder: string, other: string)
    requires forall i :: 0 <= i < |events| ==> events[i].folder == folder
    ensures FolderIds(events, folder) == IdsOf(events)
    ensures other != folder ==> FolderIds(events, other) == {}
  {
  }

  /** After a pass over the first `k` folders, those hold their next known ids and the rest are untouched. */
  ghost predicate KnownUpTo(known: map<string, set<MsgId>>, start: map<string, set<MsgId>>, k: nat,
                            firstRun: bool, select: string -> FolderView)
  {
    forall j :: 0 <= j < |Folders| ==>
      && Folders[j] in known && Folders[j] in start
      && known[Folders[j]] == if j < k then NextKnown(start[Folders[j]], firstRun, select(Folders[j])) else start[Folders[j]]
  }

  /** Scanning folder `k` without losing the connection extends the known ids to the first `k + 1` folders. */
  lemma KnownStep(before: map<string, set<MsgId>>, start: map<string, set<MsgId>>, k: nat,
                  firstRun: bool, select: string -> FolderView)
    requires k < |Folders| && KnownUpTo(before, start, k, firstRun, select)
    ensures KnownUpTo(before[Folders[k] := NextKnown(before[Folders[k]], firstRun, select(Folders[k]))],
                      start, k + 1, firstRun, select)
  {
    assert Folders[0] != Folders[1];
  }

  /**
   * Every event of a pass over the first `k` folders came from one of them, was new there, fetched
   * OK and is the record of the fetched message; and no (folder, id) occurs twice.
   */
  ghost predicate EventsFrom(events: seq<MailEvent>, k: nat, known: map<string, set<MsgId>>,
                             select: string -> FolderView, fetch: (string, MsgId) -> FetchOutcome)
  {
    && (forall i :: 0 <= i < |events| ==>
          && (exists j :: 0 <= j < k && j < |Folders| && events[i].folder == Folders[j])
          && events[i].folder in known
          && events[i].id in CurrentIds(select(events[i].folder)) - known[events[i].folder]
          && fetch(events[i].folder, events[i].id).FetchOk?
          && events[i] == EventOf(events[i].folder, events[i].id, fetch(events[i].folder, events[i].id).message))
    && DistinctPairs(events)
  }

  /** Scanning folder `k` extends the events of the first `k` folders to the first `k + 1`. */
  lemma EventsStep(before: seq<MailEvent>, found: seq<MailEvent>, k: nat, known: map<string, set<MsgId>>,
                   select: string -> FolderView, fetch: (string, MsgId) -> FetchOutcome)
    requires k < |Folders| && Folders[k] in known && EventsFrom(before, k, known, select, fetch)
    requires forall i :: 0 <= i < |found| ==>
               && found[i].folder == Folders[k]
               && found[i].id in CurrentIds(select(Folders[k])) - known[Folders[k]]
               && fetch(Folders[k], found[i].id).FetchOk?
               && found[i] == EventOf(Folders[k], found[i].id, fetch(Folders[k], found[i].id).message)
    requires DistinctIds(found)
    ensures EventsFrom(before + found, k + 1, known, select, fetch)
  {
    var s := before + found;
    forall i | 0 <= i < |s|
      ensures exists j :: 0 <= j < k + 1 && j < |Folders| && s[i].folder == Folders[j]
    {
      if i < |before| {
        assert s[i] == before[i];
      } else {
        assert s[i] == found[i - |before|];
      }
    }
    forall i, j | 0 <= i < j < |s|
      ensures (s[i].folder, s[i].id) != (s[j].folder, s[j].id)
    {
      if j < |before| {
        assert s[i] == before[i] && s[j] == before[j];
      } else if i >= |before| {
        assert s[i] == found[i - |before|] && s[j] == found[j - |before|];
      } else {
        assert s[i] == before[i] && s[j] == found[j - |before|];
        var m :| 0 <= m < k && m < |Folders| && before[i].folder == Folders[m];
        assert Folders[0] != Folders[1];
      }
    }
  }

  /**
   * The per-folder reports of a pass that has scanned the first `k` folders: on a later run each
   * scanned folder reported exactly its new OK ids, and the folders not yet scanned reported nothing.
   */
  ghost predicate ReportsUpTo(events: seq<MailEvent>, k: nat, known: map<string, set<MsgId>>,
                              select: string -> FolderView, fetch: (string, MsgId) -> FetchOutcome, firstRun: bool)
  {
    && (!firstRun ==> forall j :: 0 <= j < k && j < |Folders| ==>
          Folders[j] in known && FolderIds(events, Folders[j]) == Reported(Folders[j], known[Folders[j]], select(Folders[j]), fetch))
    && (forall j :: k <= j < |Folders| ==> FolderIds(events, Folders[j]) == {})
  }

  /** Scanning folder `k` with the report it owes extends the reports to `k + 1`. */
  lemma ReportsStep(before: seq<MailEvent>, found: seq<MailEvent>, k: nat, known: map<string, set<MsgId>>,
                    select: string -> FolderView, fetch: (string, MsgId) -> FetchOutcome, firstRun: bool)
    requires k < |Folders| && ReportsUpTo(before, k, known, select, fetch, firstRun)
    requires forall i :: 0 <= i < |found| ==> found[i].folder == Folders[k]
    requires !firstRun ==> Folders[k] in known && IdsOf(found) == Reported(Folders[k], known[Folders[k]], select(Folders[k]), fetch)
    ensures ReportsUpTo(before + found, k + 1, known, select, fetch, firstRun)
  {
    forall j | 0 <= j < |Folders|
      ensures FolderIds(before + found, Folders[j]) == FolderIds(before, Folders[j]) + FolderIds(found, Folders[j])
      ensures FolderIds(found, Folders[j]) == if j == k then IdsOf(found) else {}
    {
      FolderIdsAppend(before, found, Folders[j]);
      FolderIdsOne(found, Folders[k], Folders[j]);
    }
  }

  /** The state `email_trigger` keeps across polls and across reconnects (email_client.py:99-100). */
  class MailboxWatcher {
    /** `known_ids`: per folder, the ids already seen. */
    var knownIds: map<string, set<MsgId>>
    /** `is_first_run`: the next completed poll only takes the snapshot. */
    var isFirstRun: bool
    /** Every (folder, id) yielded so far. */
    ghost var delivered: set<(string, MsgId)>

    ghost predicate Valid()
      reads this
    {
      && (forall k :: 0 <= k < |Folders| ==> Folders[k] in knownIds)
      && (isFirstRun ==> delivered == {})
    }

    /** Everything yielded so far is known, so it will not be yielded again. */
    ghost predicate Clean()
      reads this
    {
      forall p :: p in delivered ==> p.0 in knownIds && p.1 in knownIds[p.0]
    }

    /** email_client.py:99-100: every folder known to be empty, first run pending. */
    constructor ()
      ensures Valid() && Clean()
      ensures isFirstRun && delivered == {}
      ensures knownIds == map["INBOX" := {}, "Junk E-mail" := {}]
    {
      knownIds := map["INBOX" := {}, "Junk E-mail" := {}];
      isFirstRun := true;
      delivered := {};
    }

    /**
     * One folder of one poll (email_client.py:114-184). On the first run a selectable folder's
     * known ids become exactly its current ids and nothing is yielded. Later, the ids not yet
     * known are fetched one by one, in no particular order: each OK fetch is yielded once, an id
     * whose fetch is not OK is skipped, and when no fetch raised all of them, yielded or not,
     * become known. A raising fetch loses the connection: the folder's known ids stay as they
     * were, although what was yielded before the raise has been yielded.
     */
    method ScanFolder(folder: string, view: FolderView, fetch: (string, MsgId) -> FetchOutcome)
      returns (events: seq<MailEvent>, lost: bool)
      requires Valid() && folder in knownIds
      modifies this`knownIds, this`delivered
      ensures Valid() && knownIds.Keys == old(knownIds.Keys)
      ensures view.Lost? ==> lost && events == [] && knownIds == old(knownIds) && delivered == old(delivered)
      ensures view.SelectFailed? ==> !lost && events == [] && knownIds == old(knownIds) && delivered == old(delivered)
      ensures (view.Listing? || view.SearchNotOk?) && isFirstRun ==>
                && !lost && events == [] && delivered == old(delivered)
                && knownIds == old(knownIds)[folder := CurrentIds(view)]
      ensures (view.Listing? || view.SearchNotOk?) && !isFirstRun ==>
                && (lost <==> exists id :: id in CurrentIds(view) - old(knownIds[folder]) && fetch(folder, id).FetchRaised?)
                && delivered == old(delivered) + PairsOf(events)
      ensures !lost ==> knownIds == old(knownIds)[folder := NextKnown(old(knownIds[folder]), isFirstRun, view)]
      ensures !lost && !isFirstRun ==> IdsOf(events) == Reported(folder, old(knownIds[folder]), view, fetch)
      ensures lost ==> knownIds == old(knownIds)
      ensures DistinctIds(events)
      ensures forall i :: 0 <= i < |events| ==>
                && events[i].folder == folder
                && events[i].id in CurrentIds(view) - old(knownIds[folder])
                && fetch(folder, events[i].id).FetchOk?
                && events[i] == EventOf(folder, events[i].id, fetch(folder, events[i].id).message)
      ensures old(Clean()) && !lost ==> Clean()
      ensures old(Clean()) ==> forall i :: 0 <= i < |events| ==> (folder, events[i].id) !in old(delivered)
    {
      events, lost := [], false;
      if view.Lost? {
        lost := true;
        return;
      }
      if view.SelectFailed? {
        return;
      }
      var current := CurrentIds(view);
      var newIds := current - knownIds[folder];
      if isFirstRun {
        knownIds := knownIds[folder := current];
        return;
      }
      if newIds != {} {
        var pending := newIds;
        while pending != {}
          invariant pending <= newIds
          invariant knownIds == old(knownIds)
          invariant DistinctIds(events)
          invariant forall i :: 0 <= i < |events| ==>
                      && events[i].id in newIds - pending
                      && fetch(folder, events[i].id).FetchOk?
                      && events[i] == EventOf(folder, events[i].id, fetch(folder, events[i].id).message)
          invariant forall id :: id in newIds - pending ==> !fetch(folder, id).FetchRaised?
          invariant IdsOf(events) == set id | id in newIds - pending && fetch(folder, id).FetchOk?
          invariant delivered == old(delivered) + PairsOf(events)
          decreases pending
        {
          var id :| id in pending;
          pending := pending - {id};
          match fetch(folder, id)
          case FetchRaised =>
            lost := true;
            return;
          case FetchNotOk =>
          case FetchOk(m) =>
            var e := EventOf(folder, id, m);
            IdsOfAppend(events, e);
            events := events + [e];
            delivered := delivered + {(folder, id)};
        }
        knownIds := knownIds[folder := knownIds[folder] + newIds];
      } else {
        assert knownIds[folder] + newIds == knownIds[folder];
        assert knownIds == knownIds[folder := knownIds[folder] + newIds];
      }
    }

    /**
     * One pass over the watched folders (email_client.py:113-189). Folders are visited in
     * order, and a lost connection ends the pass at that folder: the folders before it have
     * been scanned, it and the ones after are untouched, and the first-run flag is kept, so the
     * next pass after reconnecting starts from the same state. A pass that completes ends the
     * first run, even when a folder's select failed; that folder's ids then all count as new
     * on the next pass.
     */
    method Sweep(select: string -> FolderView, fetch: (string, MsgId) -> FetchOutcome)
      returns (events: seq<MailEvent>, lost: bool, stoppedAt: nat)
      requires Valid()
      modifies this`knownIds, this`delivered, this`isFirstRun
      ensures Valid() && knownIds.Keys == old(knownIds.Keys)
      ensures stoppedAt <= |Folders| && (lost <==> stoppedAt < |Folders|)
      ensures lost ==> isFirstRun == old(isFirstRun)
      ensures !lost ==> !isFirstRun
      ensures forall k :: 0 <= k < stoppedAt ==>
                knownIds[Folders[k]] == NextKnown(old(knownIds[Folders[k]]), old(isFirstRun), select(Folders[k]))
      ensures forall k :: stoppedAt <= k < |Folders| ==> knownIds[Folders[k]] == old(knownIds[Folders[k]])
      ensures !old(isFirstRun) ==> forall k :: 0 <= k < |Folders| ==> old(knownIds[Folders[k]]) <= knownIds[Folders[k]]
      ensures old(isFirstRun) ==> events == []
      ensures forall i :: 0 <= i < |events| ==>
                && events[i].folder in Folders
                && events[i].id in CurrentIds(select(events[i].folder)) - old(knownIds[events[i].folder])
                && fetch(events[i].folder, events[i].id).FetchOk?
                && events[i] == EventOf(events[i].folder, events[i].id, fetch(events[i].folder, events[i].id).message)
      ensures DistinctPairs(events)
      ensures !lost && !old(isFirstRun) ==> forall k :: 0 <= k < |Folders| ==>
                FolderIds(events, Folders[k]) == Reported(Folders[k], old(knownIds[Folders[k]]), select(Folders[k]), fetch)
      ensures old(Clean()) && !lost ==> Clean()
      ensures old(Clean()) ==> forall i :: 0 <= i < |events| ==> (events[i].folder, events[i].id) !in old(delivered)
    {
      events, lost, stoppedAt := [], false, 0;
      var k := 0;
      while k < |Folders|
        invariant 0 <= k <= |Folders|
        invariant Valid() && knownIds.Keys == old(knownIds.Keys)
        invariant isFirstRun == old(isFirstRun)
        invariant KnownUpTo(knownIds, old(knownIds), k, old(isFirstRun), select)
        invariant old(isFirstRun) ==> events == []
        invariant EventsFrom(events, k, old(knownIds), select, fetch)
        invariant old(Clean()) ==> Clean()
        invariant old(Clean()) ==> forall i :: 0 <= i < |events| ==> (events[i].folder, events[i].id) !in old(delivered)
        invariant ReportsUpTo(events, k, old(knownIds), select, fetch, old(isFirstRun))
      {
        var folder := Folders[k];
        ghost var before := events;
        ghost var knownBefore := knownIds;
        var found, folderLost := ScanFolder(folder, select(folder), fetch);
        events := events + found;
        EventsStep(before, found, k, old(knownIds), select, fetch);
        if folderLost {
          lost, stoppedAt := true, k;
          return;
        }
        ReportsStep(before, found, k, old(knownIds), select, fetch, old(isFirstRun));
        KnownStep(knownBefore, old(knownIds), k, old(isFirstRun), select);
        k := k + 1;
      }
      stoppedAt := |Folders|;
      if isFirstRun {
        isFirstRun := false;
      }
    }
  }

  /** The characters `str.splitlines()` breaks a line at. */
  predicate IsLineBoundary(c: char)
  {
    || c == '\n' || c == '\r' || c == '\U{0B}' || c == '\U{0C}' || '\U{1C}' <= c <= '\U{1E}'
    || c == '\U{85}' || c == '\U{2028}' || c == '\U{2029}'
  }

  /** The first line boundary at or after `k`, or `|s|` when there is none. */
  function LineEnd(s: string, k: nat): (e: nat)
    requires k <= |s|
    ensures k <= e <= |s| && (e < |s| ==> IsLineBoundary(s[e]))
    ensures forall m :: k <= m < e ==> !IsLineBoundary(s[m])
    decreases |s| - k
  {
    if k == |s| || IsLineBoundary(s[k]) then k else LineEnd(s, k + 1)
  }

  /** Where the line after the boundary at `e` starts; "\r\n" is one boundary. */
  function NextLine(s: string, e: nat): nat
    requires e < |s|
  {
    if s[e] == '\r' && e + 1 < |s| && s[e + 1] == '\n' then e + 2 else e + 1
  }

  /** `s[k..].splitlines()`: the lines without their boundaries; a boundary at the very end starts no line. */
  function SplitLines(s: string, k: nat): seq<string>
    requires k <= |s|
    decreases |s| - k
  {
    if k == |s| then []
    else
      var e := LineEnd(s, k);
      if e == |s| then [s[k..]] else [s[k..e]] + SplitLines(s, NextLine(s, e))
  }

  /**
   * The check the default email policy makes when a header is set: a value that splits into more
   * than one line is refused with `HeaderError`.
   */
  predicate HeaderSafe(v: string)
  {
    |SplitLines(v, 0)| <= 1
  }

  const HeaderError: string := "Header values may not contain linefeed or carriage return characters"

  /**
   * A header value is accepted exactly when every line boundary in it ends the value: a value
   * with no line break, or with one trailing "\n", "\r\n" or other single boundary.
   */
  lemma HeaderSafeIff(v: string)
    ensures HeaderSafe(v) <==> forall i :: 0 <= i < |v| && IsLineBoundary(v[i]) ==> NextLine(v, i) == |v|
  {
    if v != [] {
      var e := LineEnd(v, 0);
      if e < |v| {
        if NextLine(v, e) == |v| {
          assert SplitLines(v, 0) == [v[..e]] + SplitLines(v, |v|);
          forall i | 0 <= i < |v| && IsLineBoundary(v[i]) ensures NextLine(v, i) == |v| {
            assert e <= i;
          }
        } else {
          assert |SplitLines(v, NextLine(v, e))| >= 1;
        }
      }
    }
  }

  /** A value that goes on after a line break, such as an injected second header, is refused. */
  lemma InjectedHeaderRefused(v: string, w: string)
    requires w != ""
    ensures !HeaderSafe(v + "\n" + w)
  {
    var s := v + "\n" + w;
    assert s[|v|] == '\n' && IsLineBoundary(s[|v|]);
    assert NextLine(s, |v|) == |v| + 1 < |s|;
    HeaderSafeIff(s);
  }

  class EmailClient {
    var emailAddress: Option<string>
    var password: Option<string>

    /** email_client.py:17-19; the server names and ports read from the environment are not modelled. */
    constructor ()
      ensures emailAddress == None && password == None
    {
      emailAddress := None;
      password := None;
    }

    /** `self.email_address and self.password`: both set and non-empty. */
    predicate LoggedIn()
      reads this
    {
      emailAddress.Some? && emailAddress.value != "" && password.Some? && password.value != ""
    }

    /**
     * `email_login` (email_client.py:26-58): the SMTP check runs first, the IMAP check only if it
     * passed. The credentials are stored only when both pass; otherwise the first failure is
     * reported as "Authentication failed: ..." and the stored credentials are left alone.
     */
    method EmailLogin(addr: string, pw: string, smtpCheck: CheckResult, imapCheck: CheckResult) returns (r: Result<bool, string>)
      modifies this`emailAddress, this`password
      ensures smtpCheck.Passed? && imapCheck.Passed? ==> r == Success(true) && emailAddress == Some(addr) && password == Some(pw)
      ensures smtpCheck.Failed? ==>
                r == Failure("Authentication failed: " + smtpCheck.error)
                && emailAddress == old(emailAddress) && password == old(password)
      ensures smtpCheck.Passed? && imapCheck.Failed? ==>
                r == Failure("Authentication failed: " + imapCheck.error)
                && emailAddress == old(emailAddress) && password == old(password)
    {
      if smtpCheck.Failed? {
        return Failure("Authentication failed: " + smtpCheck.error);
      }
      if imapCheck.Failed? {
        return Failure("Authentication failed: " + imapCheck.error);
      }
      emailAddress := Some(addr);
      password := Some(pw);
      r := Success(true);
    }

    /**
     * `email_send` (email_client.py:60-84): refuses with the not-logged-in error unless both
     * credentials are set and non-empty. Setting the From, To and Subject headers then raises
     * `HeaderError` for a value that runs on past a line break; otherwise the message goes from
     * the stored address and authenticates with the stored credentials.
     */
    method EmailSend(to: string, subject: string, body: string) returns (r: Result<OutgoingEmail, string>)
      ensures !LoggedIn() <==> r == Failure("User not logged in. Call email_login first.")
      ensures LoggedIn() && !(HeaderSafe(emailAddress.value) && HeaderSafe(to) && HeaderSafe(subject)) ==>
                r == Failure(HeaderError)
      ensures LoggedIn() && HeaderSafe(emailAddress.value) && HeaderSafe(to) && HeaderSafe(subject) ==>
                r == Success(OutgoingEmail(emailAddress.value, to, subject, body, emailAddress.value, password.value))
    {
      if !(emailAddress.Some? && emailAddress.value != "" && password.Some? && password.value != "") {
        return Failure("User not logged in. Call email_login first.");
      }
      if !HeaderSafe(emailAddress.value) || !HeaderSafe(to) || !HeaderSafe(subject) {
        return Failure(HeaderError);
      }
      r := Success(OutgoingEmail(emailAddress.value, to, subject, body, emailAddress.value, password.value));
    }

    /**
     * Starting `email_trigger` (email_client.py:86-100): refuses unless logged in; otherwise a new
     * watcher with every folder's known set empty and the first run pending.
     */
    method EmailTrigger() returns (r: Result<MailboxWatcher, string>)
      ensures !LoggedIn() <==> r == Failure("User not logged in.")
      ensures r.Success? ==>
                && fresh(r.value) && r.value.Valid() && r.value.Clean()
                && r.value.isFirstRun && r.value.delivered == {}
                && r.value.knownIds == map["INBOX" := {}, "Junk E-mail" := {}]
    {
      if !(emailAddress.Some? && emailAddress.value != "" && password.Some? && password.value != "") {
        return Failure("User not logged in.");
      }
      var watcher := new MailboxWatcher();
      r := Success(watcher);
    }
  }
}
