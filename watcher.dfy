/**
 * Resolution of an inbound email to a negotiation and a supplier, and its hand-off to the
 * router: the body of `email_watcher` (main.py:83-174).
 *
 * The store's answers become maps: supplier by contact address, negotiation by id prefix,
 * supplier by id prefix. The in-memory registry of live sessions becomes the list of
 * (negotiation id, supplier ids with an agent) in the registry's insertion order, which is
 * the order Python iterates it in. Ids that come from the store or from the registry are
 * UUID strings and never empty, so Python's truthiness tests on them are tests of presence.
 */
module Watcher {
  import opened Wrappers
  import Router

  /** A non-empty id, as stored. */
  type Id = s: string | s != "" witness "0"

  /** The three fields of a yielded email the watcher reads. */
  datatype InboundMail = InboundMail(sender: string, subject: string, body: string)

  /** The store lookups the watcher issues. */
  datatype Directory = Directory(
    supplierByEmail: map<string, Id>,
    negotiationByPrefix: map<string, Id>,
    supplierByPrefix: map<string, Id>)

  /** One live session: its negotiation id and the supplier ids in its `_agents`. */
  datatype ActiveSession = ActiveSession(ngId: Id, suppliers: set<string>)

  /** The pair an email is routed to. */
  datatype Route = Route(ngId: Id, supplierId: Id)

  /** The two id prefixes a reference tag carries, as written in the subject. */
  datatype RefTag = RefTag(ngPrefix: string, supPrefix: string)

  function Lookup(m: map<string, Id>, key: string): Option<Id>
  {
    if key in m then Some(m[key]) else None
  }

  // ---------------------------------------------------------------------------
  // Sender address: re.search(r"<([^>]+)>", sender)

  /** A match of `<([^>]+)>` with '<' at `i` and '>' at `j`. */
  predicate AddressAt(s: string, i: int, j: int)
  {
    0 <= i && i + 1 < j < |s| && s[i] == '<' && s[j] == '>' && forall k :: i < k < j ==> s[k] != '>'
  }

  /** The first '>' at or after `k`. */
  function FirstClose(s: string, k: nat): (r: Option<nat>)
    requires k <= |s|
    ensures r.Some? ==> k <= r.value < |s| && s[r.value] == '>' && forall m :: k <= m < r.value ==> s[m] != '>'
    ensures r.None? ==> forall m :: k <= m < |s| ==> s[m] != '>'
    decreases |s| - k
  {
    if k == |s| then None
    else if s[k] == '>' then Some(k)
    else FirstClose(s, k + 1)
  }

  /** The leftmost match starting at or after `k`, as the regex engine scans. */
  function AddressFrom(s: string, k: nat): (r: Option<(nat, nat)>)
    requires k <= |s|
    ensures r.Some? ==> k <= r.value.0 && AddressAt(s, r.value.0, r.value.1)
                        && forall i, j :: k <= i < r.value.0 ==> !AddressAt(s, i, j)
    ensures r.None? ==> forall i, j :: k <= i ==> !AddressAt(s, i, j)
    decreases |s| - k
  {
    if k == |s| then None
    else if s[k] == '<' && k + 1 < |s| && FirstClose(s, k + 1).Some? && FirstClose(s, k + 1).value > k + 1 then
      Some((k, FirstClose(s, k + 1).value))
    else
      AddressFrom(s, k + 1)
  }

  /** main.py:86-89: the text of the first `<...>` group, or the sender unchanged. */
  function ExtractAddress(sender: string): string
  {
    match AddressFrom(sender, 0)
    case Some((i, j)) => sender[i + 1..j]
    case None => sender
  }

  /**
   * The extracted address is the text inside the leftmost `<...>` with at least one character
   * and no '>' inside; with no such pair the sender is returned as it is.
   */
  lemma ExtractAddressCorrect(sender: string, i: int, j: int)
    ensures (forall i2, j2 :: !AddressAt(sender, i2, j2)) ==> ExtractAddress(sender) == sender
    ensures AddressAt(sender, i, j) && (forall i2, j2 :: AddressAt(sender, i2, j2) ==> i <= i2) ==>
              ExtractAddress(sender) == sender[i + 1..j] && '>' !in ExtractAddress(sender) && ExtractAddress(sender) != ""
  {
    if AddressAt(sender, i, j) && (forall i2, j2 :: AddressAt(sender, i2, j2) ==> i <= i2) {
      var r := AddressFrom(sender, 0);
      assert r.Some? ==> r.value.0 == i;
      assert r.Some?;
      assert r.value.1 == j;
    }
  }

  // ---------------------------------------------------------------------------
  // Reference tag: re.search(r"\[REF-([a-f0-9]{8})-([a-f0-9]{8})\]", subject, re.IGNORECASE)

  /** `[a-f0-9]` under IGNORECASE. */
  predicate IsHex(c: char)
  {
    '0' <= c <= '9' || 'a' <= c <= 'f' || 'A' <= c <= 'F'
  }

  predicate IsHex8(t: string)
  {
    |t| == 8 && forall k :: 0 <= k < 8 ==> IsHex(t[k])
  }

  predicate IsLowerHex8(t: string)
  {
    |t| == 8 && forall k :: 0 <= k < 8 ==> '0' <= t[k] <= '9' || 'a' <= t[k] <= 'f'
  }

  /** The length of a tag: "[REF-" + 8 + "-" + 8 + "]". */
  const TagLength: nat := 23

  /** A tag occupies `s[i..i + 23]`; the letters of REF may be in either case. */
  predicate TagAt(s: string, i: int)
  {
    && 0 <= i && i + TagLength <= |s|
    && s[i] == '[' && (s[i + 1] == 'R' || s[i + 1] == 'r') && (s[i + 2] == 'E' || s[i + 2] == 'e')
    && (s[i + 3] == 'F' || s[i + 3] == 'f') && s[i + 4] == '-'
    && IsHex8(s[i + 5..i + 13]) && s[i + 13] == '-' && IsHex8(s[i + 14..i + 22]) && s[i + 22] == ']'
  }

  /** The two groups of the tag at `i`, case kept as written. */
  function GroupsAt(s: string, i: nat): RefTag
    requires i + TagLength <= |s|
  {
    RefTag(s[i + 5..i + 13], s[i + 14..i + 22])
  }

  function RefTagFrom(s: string, k: nat): (r: Option<RefTag>)
    decreases |s| - k
  {
    if k + TagLength > |s| then None
    else if TagAt(s, k) then Some(GroupsAt(s, k))
    else RefTagFrom(s, k + 1)
  }

  /** main.py:104-113: the groups of the leftmost tag in the subject, if any. */
  function FindRefTag(subject: string): Option<RefTag>
  {
    RefTagFrom(subject, 0)
  }

  lemma {:induction false} RefTagFromCorrect(s: string, k: nat)
    ensures RefTagFrom(s, k).None? <==> forall i :: k <= i ==> !TagAt(s, i)
    ensures RefTagFrom(s, k).Some? ==>
              exists i :: k <= i && TagAt(s, i) && (forall i2 :: k <= i2 < i ==> !TagAt(s, i2))
                          && RefTagFrom(s, k) == Some(GroupsAt(s, i))
    decreases |s| - k
  {
    if k + TagLength > |s| {
      assert forall i :: k <= i ==> !TagAt(s, i);
    } else if TagAt(s, k) {
    } else {
      RefTagFromCorrect(s, k + 1);
      if RefTagFrom(s, k + 1).Some? {
        var i :| k + 1 <= i && TagAt(s, i) && (forall i2 :: k + 1 <= i2 < i ==> !TagAt(s, i2))
                 && RefTagFrom(s, k + 1) == Some(GroupsAt(s, i));
        assert forall i2 :: k <= i2 < i ==> !TagAt(s, i2);
      }
    }
  }

  /**
   * A subject has a tag exactly when some position holds one, and then the groups returned
   * are those of the leftmost one; both are 8 hexadecimal digits in either case.
   */
  lemma FindRefTagCorrect(subject: string)
    ensures FindRefTag(subject).None? <==> forall i :: 0 <= i ==> !TagAt(subject, i)
    ensures FindRefTag(subject).Some? ==>
              && IsHex8(FindRefTag(subject).value.ngPrefix) && IsHex8(FindRefTag(subject).value.supPrefix)
              && exists i :: TagAt(subject, i) && (forall i2 :: 0 <= i2 < i ==> !TagAt(subject, i2))
                             && FindRefTag(subject) == Some(GroupsAt(subject, i))
  {
    RefTagFromCorrect(subject, 0);
  }

  /** The tag an outbound subject carries for a pair of id prefixes. */
  function MakeTag(ngPrefix: string, supPrefix: string): string
  {
    "[REF-" + ngPrefix + "-" + supPrefix + "]"
  }

  lemma {:induction false} RefTagSkip(s: string, k: nat, n: nat)
    requires k <= n
    requires forall i :: k <= i < n ==> !TagAt(s, i)
    ensures RefTagFrom(s, k) == RefTagFrom(s, n)
    decreases n - k
  {
    if k < n {
      RefTagSkip(s, k + 1, n);
    }
  }

  /**
   * Round trip of the tag: a subject made of some text with no tag in it, the tag for two
   * 8-digit hexadecimal prefixes, and anything after, yields exactly those two prefixes.
   */
  lemma TagRoundTrip(pre: string, ngPrefix: string, supPrefix: string, post: string)
    requires IsHex8(ngPrefix) && IsHex8(supPrefix)
    requires forall i :: 0 <= i < |pre| ==> !TagAt(pre + MakeTag(ngPrefix, supPrefix) + post, i)
    ensures FindRefTag(pre + MakeTag(ngPrefix, supPrefix) + post) == Some(RefTag(ngPrefix, supPrefix))
  {
    var s := pre + MakeTag(ngPrefix, supPrefix) + post;
    var n := |pre|;
    RefTagSkip(s, 0, n);
    assert s[n..n + TagLength] == MakeTag(ngPrefix, supPrefix);
    assert s[n + 5..n + 13] == ngPrefix;
    assert s[n + 14..n + 22] == supPrefix;
    assert TagAt(s, n);
  }

  // ---------------------------------------------------------------------------
  // Scans over the live sessions

  /** The index of the first session whose negotiation id starts with `prefix`. */
  function FirstWithPrefix(sessions: seq<ActiveSession>, prefix: string): (r: Option<nat>)
    ensures r.Some? ==> r.value < |sessions| && prefix <= sessions[r.value].ngId
                        && forall k :: 0 <= k < r.value ==> !(prefix <= sessions[k].ngId)
    ensures r.None? ==> forall k :: 0 <= k < |sessions| ==> !(prefix <= sessions[k].ngId)
  {
    if |sessions| == 0 then None
    else if prefix <= sessions[0].ngId then Some(0)
    else match FirstWithPrefix(sessions[1..], prefix)
      case Some(k) => Some(k + 1)
      case None => None
  }

  /** The index of the first session holding an agent for `supplierId`. */
  function FirstWithSupplier(sessions: seq<ActiveSession>, supplierId: string): (r: Option<nat>)
    ensures r.Some? ==> r.value < |sessions| && supplierId in sessions[r.value].suppliers
                        && forall k :: 0 <= k < r.value ==> supplierId !in sessions[k].suppliers
    ensures r.None? ==> forall k :: 0 <= k < |sessions| ==> supplierId !in sessions[k].suppliers
  {
    if |sessions| == 0 then None
    else if supplierId in sessions[0].suppliers then Some(0)
    else match FirstWithSupplier(sessions[1..], supplierId)
      case Some(k) => Some(k + 1)
      case None => None
  }

  /** main.py:116-119: the first live negotiation whose id starts with `prefix`. */
  function SessionWithPrefix(sessions: seq<ActiveSession>, prefix: string): Option<Id>
  {
    match FirstWithPrefix(sessions, prefix)
    case Some(k) => Some(sessions[k].ngId)
    case None => None
  }

  /** main.py:147-150: the first live negotiation holding an agent for `supplierId`. */
  function SessionWithSupplier(sessions: seq<ActiveSession>, supplierId: string): Option<Id>
  {
    match FirstWithSupplier(sessions, supplierId)
    case Some(k) => Some(sessions[k].ngId)
    case None => None
  }

  /** Session `k` is the one the prefix scan stops at when it is the first to match. */
  lemma PrefixMatchAt(sessions: seq<ActiveSession>, prefix: string, k: nat)
    requires k < |sessions| && prefix <= sessions[k].ngId
    requires forall j :: 0 <= j < k ==> !(prefix <= sessions[j].ngId)
    ensures SessionWithPrefix(sessions, prefix) == Some(sessions[k].ngId)
  {
  }

  /** Session `k` is the one the supplier scan stops at when it is the first to hold the supplier. */
  lemma SupplierMatchAt(sessions: seq<ActiveSession>, supplierId: string, k: nat)
    requires k < |sessions| && supplierId in sessions[k].suppliers
    requires forall j :: 0 <= j < k ==> supplierId !in sessions[j].suppliers
    ensures SessionWithSupplier(sessions, supplierId) == Some(sessions[k].ngId)
  {
  }

  // ---------------------------------------------------------------------------
  // Resolution

  /** The negotiation named by the tag: a live session first, else the store (main.py:115-128). */
  function NegotiationFromTag(tag: RefTag, dir: Directory, sessions: seq<ActiveSession>): Option<Id>
  {
    match SessionWithPrefix(sessions, tag.ngPrefix)
    case Some(ng) => Some(ng)
    case None => Lookup(dir.negotiationByPrefix, tag.ngPrefix)
  }

  /**
   * Where the watcher routes `mail`, or None when it drops it (main.py:83-156): an unknown
   * sender is dropped before the subject is read; the tag's supplier wins over the sender's;
   * the tag's negotiation wins over the first live session holding that supplier.
   */
  function Resolve(mail: InboundMail, dir: Directory, sessions: seq<ActiveSession>): Option<Route>
  {
    var address := ExtractAddress(mail.sender);
    if address !in dir.supplierByEmail then None
    else
      var tag := FindRefTag(mail.subject);
      var ngFromTag := if tag.Some? then NegotiationFromTag(tag.value, dir, sessions) else None;
      var supFromTag := if tag.Some? then Lookup(dir.supplierByPrefix, tag.value.supPrefix) else None;
      var supplierId := if supFromTag.Some? then supFromTag.value else dir.supplierByEmail[address];
      var ngId := if ngFromTag.Some? then ngFromTag else SessionWithSupplier(sessions, supplierId);
      if ngId.Some? then Some(Route(ngId.value, supplierId)) else None
  }

  /** The event built for a routed email: its own text fields and the resolved ids (main.py:165-172). */
  function EventFor(mail: InboundMail, route: Route): (e: Router.EmailEvent)
    ensures e.sender == mail.sender && e.subject == mail.subject && e.body == mail.body
    ensures e.supplierId == Some(route.supplierId) && e.ngId == Some(route.ngId)
  {
    Router.EmailEvent(mail.sender, mail.subject, mail.body, Some(route.supplierId), Some(route.ngId))
  }

  /** An email whose sender is no supplier's contact address is dropped, whatever its subject says. */
  lemma UnknownSenderDropped(mail: InboundMail, dir: Directory, sessions: seq<ActiveSession>, subject: string)
    requires ExtractAddress(mail.sender) !in dir.supplierByEmail
    ensures Resolve(mail, dir, sessions) == None
    ensures Resolve(mail.(subject := subject), dir, sessions) == None
  {
  }

  /**
   * The supplier is the one the tag's prefix names in the store when there is a tag and the
   * store knows that prefix, and otherwise the sender's.
   */
  lemma SupplierPriority(mail: InboundMail, dir: Directory, sessions: seq<ActiveSession>)
    requires Resolve(mail, dir, sessions).Some?
    ensures var tag := FindRefTag(mail.subject);
      Resolve(mail, dir, sessions).value.supplierId ==
        if tag.Some? && tag.value.supPrefix in dir.supplierByPrefix then dir.supplierByPrefix[tag.value.supPrefix]
        else dir.supplierByEmail[ExtractAddress(mail.sender)]
  {
  }

  /**
   * For a known sender, the negotiation is the tag's (a live session starting with the prefix,
   * else the store's match); with no tag or no match, the first live session holding the
   * supplier; and the email is dropped exactly when none of these exists.
   */
  lemma NegotiationPriority(mail: InboundMail, dir: Directory, sessions: seq<ActiveSession>, supplierId: Id)
    requires ExtractAddress(mail.sender) in dir.supplierByEmail
    requires supplierId == if FindRefTag(mail.subject).Some? && FindRefTag(mail.subject).value.supPrefix in dir.supplierByPrefix
                           then dir.supplierByPrefix[FindRefTag(mail.subject).value.supPrefix]
                           else dir.supplierByEmail[ExtractAddress(mail.sender)]
    ensures var tag := FindRefTag(mail.subject);
      var fromTag := if tag.Some? then NegotiationFromTag(tag.value, dir, sessions) else None;
      && (fromTag.Some? ==> Resolve(mail, dir, sessions) == Some(Route(fromTag.value, supplierId)))
      && (fromTag.None? ==>
            Resolve(mail, dir, sessions) ==
              match SessionWithSupplier(sessions, supplierId)
              case Some(ng) => Some(Route(ng, supplierId))
              case None => None)
      && (Resolve(mail, dir, sessions).None? <==>
            fromTag.None? && forall k :: 0 <= k < |sessions| ==> supplierId !in sessions[k].suppliers)
  {
    var tag := FindRefTag(mail.subject);
    var fromTag := if tag.Some? then NegotiationFromTag(tag.value, dir, sessions) else None;
    if fromTag.None? {
      var r := FirstWithSupplier(sessions, supplierId);
      if r.Some? {
        assert supplierId in sessions[r.value].suppliers;
      }
    }
  }

  /**
   * A reply to an email this system sent routes back to the right pair: the subject carries the
   * tag made of the first eight characters of a live negotiation's id and of the supplier's id,
   * no earlier live session shares the negotiation prefix, the store maps the supplier prefix
   * to the supplier, and the sender is a known supplier address (which one does not matter).
   */
  lemma ReplyRoutesBack(mail: InboundMail, dir: Directory, sessions: seq<ActiveSession>,
                        k: nat, supplierId: Id, pre: string, post: string)
    requires k < |sessions| && |sessions[k].ngId| >= 8 && |supplierId| >= 8
    requires IsLowerHex8(sessions[k].ngId[..8]) && IsLowerHex8(supplierId[..8])
    requires forall j :: 0 <= j < k ==> !(sessions[k].ngId[..8] <= sessions[j].ngId)
    requires supplierId[..8] in dir.supplierByPrefix && dir.supplierByPrefix[supplierId[..8]] == supplierId
    requires ExtractAddress(mail.sender) in dir.supplierByEmail
    requires mail.subject == pre + MakeTag(sessions[k].ngId[..8], supplierId[..8]) + post
    requires forall i :: 0 <= i < |pre| ==> !TagAt(mail.subject, i)
    ensures Resolve(mail, dir, sessions) == Some(Route(sessions[k].ngId, supplierId))
  {
    var p, q := sessions[k].ngId[..8], supplierId[..8];
    TagRoundTrip(pre, p, q, post);
    PrefixMatchAt(sessions, p, k);
  }

  // ---------------------------------------------------------------------------
  // The watcher step

  /**
   * The resolution as the watcher performs it (main.py:83-172): the sender lookup, then the tag,
   * the scan of live sessions for the negotiation prefix with its early exit, the store
   * fallbacks, and the scan for a session holding the supplier. Returns the event to push, or
   * None when the email is dropped.
   */
  method RouteEmail(mail: InboundMail, dir: Directory, sessions: seq<ActiveSession>)
    returns (event: Option<Router.EmailEvent>)
    ensures event.None? <==> Resolve(mail, dir, sessions).None?
    ensures event.Some? ==> event.value == EventFor(mail, Resolve(mail, dir, sessions).value)
  {
    var senderEmail := ExtractAddress(mail.sender);
    if senderEmail !in dir.supplierByEmail {
      return None;
    }
    var supplierRow := dir.supplierByEmail[senderEmail];

    var ngId: Option<Id> := None;
    var supplierId: Option<Id> := None;
    var refMatch := FindRefTag(mail.subject);
    if refMatch.Some? {
      var ngPrefix, supPrefix := refMatch.value.ngPrefix, refMatch.value.supPrefix;
      var k := 0;
      while k < |sessions|
        invariant 0 <= k <= |sessions|
        invariant ngId.None?
        invariant forall j :: 0 <= j < k ==> !(ngPrefix <= sessions[j].ngId)
      {
        if ngPrefix <= sessions[k].ngId {
          PrefixMatchAt(sessions, ngPrefix, k);
          ngId := Some(sessions[k].ngId);
          break;
        }
        k := k + 1;
      }
      if ngId.None? {
        ngId := Lookup(dir.negotiationByPrefix, ngPrefix);
      }
      supplierId := Lookup(dir.supplierByPrefix, supPrefix);
    }
    if supplierId.None? {
      supplierId := Some(supplierRow);
    }
    if ngId.None? {
      var k := 0;
      while k < |sessions|
        invariant 0 <= k <= |sessions|
        invariant ngId.None?
        invariant forall j :: 0 <= j < k ==> supplierId.value !in sessions[j].suppliers
      {
        if supplierId.value in sessions[k].suppliers {
          SupplierMatchAt(sessions, supplierId.value, k);
          ngId := Some(sessions[k].ngId);
          break;
        }
        k := k + 1;
      }
      if ngId.None? {
        return None;
      }
    }
    event := Some(Router.EmailEvent(mail.sender, mail.subject, mail.body, supplierId, ngId));
  }

  /**
   * One iteration of the watcher loop (main.py:83-174): a routed email is pushed to the router,
   * a dropped one changes nothing.
   */
  method OnInboundMail(router: Router.EmailEventRouter, mail: InboundMail, dir: Directory, sessions: seq<ActiveSession>)
    modifies router`dispatched
    ensures router.dispatched == old(router.dispatched) +
      match Resolve(mail, dir, sessions)
      case None => []
      case Some(route) => Router.DispatchesFor(router.handlers, router.defaultHandler, EventFor(mail, route))
  {
    var event := RouteEmail(mail, dir, sessions);
    if event.Some? {
      router.Push(event.value);
    }
  }
}
