/**
 * Two pure computations of the HTTP layer (main.py): the CORS origin list read from the
 * FRONTEND_ORIGINS setting, and the completion summary of `negotiation_status`.
 */
module Endpoints {
  import opened Wrappers

  // ---------------------------------------------------------------------------
  // allowed_origins (main.py:228-230)

  /** The characters Python's `str.strip()` removes: those for which `str.isspace()` holds. */
  predicate IsSpace(c: char)
  {
    || c == ' ' || '\t' <= c <= '\r' || '\U{1C}' <= c <= '\U{1F}'
    || c == '\U{85}' || c == '\U{A0}' || c == '\U{1680}' || '\U{2000}' <= c <= '\U{200A}'
    || c == '\U{2028}' || c == '\U{2029}' || c == '\U{202F}' || c == '\U{205F}' || c == '\U{3000}'
  }

  /** `lstrip()`. */
  function TrimStart(s: string): (r: string)
    ensures |r| <= |s|
    ensures r != [] ==> !IsSpace(r[0])
  {
    if s != [] && IsSpace(s[0]) then TrimStart(s[1..]) else s
  }

  /** `rstrip()`. */
  function TrimEnd(s: string): (r: string)
    ensures |r| <= |s|
    ensures r != [] ==> !IsSpace(r[|r| - 1])
  {
    if s != [] && IsSpace(s[|s| - 1]) then TrimEnd(s[..|s| - 1]) else s
  }

  /** `str.strip()`: the text with leading and trailing white space removed. */
  function Strip(s: string): (r: string)
    ensures r != [] ==> !IsSpace(r[0]) && !IsSpace(r[|r| - 1])
  {
    var t := TrimStart(s);
    TrimEndSlice(t);
    TrimEnd(t)
  }

  lemma {:induction false} TrimStartSlice(s: string)
    ensures TrimStart(s) == s[|s| - |TrimStart(s)|..]
    ensures forall k :: 0 <= k < |s| - |TrimStart(s)| ==> IsSpace(s[k])
  {
    if s != [] && IsSpace(s[0]) {
      TrimStartSlice(s[1..]);
      forall k | 1 <= k < |s| - |TrimStart(s)| ensures IsSpace(s[k]) {
        assert s[k] == s[1..][k - 1];
      }
    }
  }

  lemma {:induction false} TrimEndSlice(s: string)
    ensures TrimEnd(s) == s[..|TrimEnd(s)|]
    ensures forall k :: |TrimEnd(s)| <= k < |s| ==> IsSpace(s[k])
  {
    if s != [] && IsSpace(s[|s| - 1]) {
      TrimEndSlice(s[..|s| - 1]);
      forall k | |TrimEnd(s)| <= k < |s| - 1 ensures IsSpace(s[k]) {
        assert s[k] == s[..|s| - 1][k];
      }
    }
  }

  /** What `Strip` removes is white space at either end, and what it keeps is one contiguous stretch of `s`. */
  lemma StripSlice(s: string) returns (i: nat, j: nat)
    ensures i <= j <= |s| && Strip(s) == s[i..j]
    ensures forall k :: 0 <= k < i ==> IsSpace(s[k])
    ensures forall k :: j <= k < |s| ==> IsSpace(s[k])
  {
    var t := TrimStart(s);
    var r := TrimEnd(t);
    TrimStartSlice(s);
    TrimEndSlice(t);
    i, j := |s| - |t|, |s| - |t| + |r|;
    assert t == s[i..];
    assert r == t[..|r|];
    assert r == s[i..j];
    forall k | j <= k < |s| ensures IsSpace(s[k]) {
      assert s[k] == t[k - i];
    }
  }

  /** Stripping twice strips nothing more. */
  lemma StripIdempotent(s: string)
    ensures Strip(Strip(s)) == Strip(s)
  {
    var r := Strip(s);
    if r != [] {
      assert TrimStart(r) == r;
      assert TrimEnd(r) == r;
    }
  }

  /** Stripping never introduces a character. */
  lemma StripInside(s: string, c: char)
    ensures c in Strip(s) ==> c in s
  {
    if c in Strip(s) {
      var i, j := StripSlice(s);
      var m :| 0 <= m < |Strip(s)| && Strip(s)[m] == c;
      assert s[i + m] == c;
    }
  }

  /** `s.split(sep)`: the pieces between separators, at least one, none containing the separator. */
  function Split(s: string, sep: char): (parts: seq<string>)
    ensures |parts| >= 1
    ensures forall k :: 0 <= k < |parts| ==> sep !in parts[k]
    decreases |s|
  {
    if sep !in s then [s]
    else
      var i := IndexOf(s, sep);
      [s[..i]] + Split(s[i + 1..], sep)
  }

  function IndexOf(s: string, c: char): (i: nat)
    requires c in s
    ensures i < |s| && s[i] == c && c !in s[..i]
  {
    if s[0] == c then 0 else 1 + IndexOf(s[1..], c)
  }

  /** Joins pieces with the separator between them. */
  function Join(parts: seq<string>, sep: char): string
    requires |parts| >= 1
  {
    if |parts| == 1 then parts[0] else parts[0] + [sep] + Join(parts[1..], sep)
  }

  /** Splitting loses nothing: joining the pieces back gives the text that was split. */
  lemma {:induction false} SplitJoin(s: string, sep: char)
    ensures Join(Split(s, sep), sep) == s
    decreases |s|
  {
    if sep in s {
      var i := IndexOf(s, sep);
      var rest := Split(s[i + 1..], sep);
      var parts := [s[..i]] + rest;
      assert Split(s, sep) == parts;
      assert parts[0] == s[..i] && parts[1..] == rest && |parts| > 1;
      assert Join(parts, sep) == s[..i] + [sep] + Join(rest, sep);
      SplitJoin(s[i + 1..], sep);
      assert s == s[..i] + [sep] + s[i + 1..];
    }
  }

  /** `[p.strip() for p in parts if p.strip()]`. */
  function Kept(parts: seq<string>): (r: seq<string>)
    ensures |r| <= |parts|
    ensures forall k :: 0 <= k < |r| ==> r[k] != ""
  {
    if parts == [] then []
    else if Strip(parts[0]) != "" then [Strip(parts[0])] + Kept(parts[1..])
    else Kept(parts[1..])
  }

  /**
   * The comprehension works piece by piece and in order: one piece gives its stripped form or
   * nothing, and the entries of a concatenation are those of each part, duplicates included.
   */
  lemma {:induction false} KeptOrder(a: seq<string>, b: seq<string>, p: string)
    ensures Kept([p]) == if Strip(p) != "" then [Strip(p)] else []
    ensures Kept(a + b) == Kept(a) + Kept(b)
  {
    assert [p][1..] == [];
    if a != [] {
      KeptOrder(a[1..], b, p);
      assert (a + b)[1..] == a[1..] + b;
      assert (a + b)[0] == a[0];
    } else {
      assert a + b == b;
    }
  }

  /** An entry is kept exactly when it is the non-empty stripped form of some piece. */
  lemma {:induction false} KeptMembers(parts: seq<string>, x: string)
    ensures x in Kept(parts) <==> x != "" && exists k :: 0 <= k < |parts| && Strip(parts[k]) == x
  {
    if parts != [] {
      KeptMembers(parts[1..], x);
      if x != "" && (exists k :: 0 <= k < |parts| && Strip(parts[k]) == x) {
        var k :| 0 <= k < |parts| && Strip(parts[k]) == x;
        if k > 0 {
          assert parts[1..][k - 1] == parts[k];
        }
      }
      if x in Kept(parts[1..]) {
        var k :| 0 <= k < |parts[1..]| && Strip(parts[1..][k]) == x;
        assert Strip(parts[k + 1]) == x;
      }
    }
  }

  /** main.py:228-230: the configured origins, or every origin when none is configured. */
  function AllowedOrigins(setting: string): seq<string>
  {
    var origins := Kept(Split(setting, ','));
    if origins != [] then origins else ["*"]
  }

  /** Some comma-separated piece of the setting is not blank. */
  predicate Configured(setting: string)
  {
    var parts := Split(setting, ',');
    exists k :: 0 <= k < |parts| && Strip(parts[k]) != ""
  }

  /** Kept pieces are never empty exactly when some piece is not blank. */
  lemma KeptEmpty(parts: seq<string>)
    ensures Kept(parts) == [] <==> forall k :: 0 <= k < |parts| ==> Strip(parts[k]) == ""
  {
    if Kept(parts) != [] {
      KeptMembers(parts, Kept(parts)[0]);
    }
    if exists k :: 0 <= k < |parts| && Strip(parts[k]) != "" {
      var k :| 0 <= k < |parts| && Strip(parts[k]) != "";
      KeptMembers(parts, Strip(parts[k]));
    }
  }

  /** The origin list is never empty, and it is ["*"] when no piece of the setting has anything but white space. */
  lemma AllowedOriginsWildcard(setting: string)
    ensures AllowedOrigins(setting) != []
    ensures !Configured(setting) ==> AllowedOrigins(setting) == ["*"]
  {
    var parts := Split(setting, ',');
    KeptEmpty(parts);
    KeptMembers(parts, "*");
  }

  /** Every kept entry is already stripped and holds no character that no piece holds. */
  lemma KeptClean(parts: seq<string>, x: string, c: char)
    requires forall k :: 0 <= k < |parts| ==> c !in parts[k]
    ensures x in Kept(parts) ==> Strip(x) == x && c !in x
  {
    if x in Kept(parts) {
      KeptMembers(parts, x);
      var k :| 0 <= k < |parts| && Strip(parts[k]) == x;
      StripInside(parts[k], c);
      StripIdempotent(parts[k]);
    }
  }

  /**
   * When the setting names something, the origins are exactly the stripped non-blank pieces,
   * each non-empty, without surrounding white space and without a comma.
   */
  lemma AllowedOriginsMembers(setting: string, x: string)
    requires Configured(setting)
    ensures var parts := Split(setting, ',');
      x in AllowedOrigins(setting) <==> x != "" && exists k :: 0 <= k < |parts| && Strip(parts[k]) == x
    ensures x in AllowedOrigins(setting) ==> x != "" && Strip(x) == x && ',' !in x
  {
    var parts := Split(setting, ',');
    KeptEmpty(parts);
    assert AllowedOrigins(setting) == Kept(parts);
    KeptMembers(parts, x);
    KeptClean(parts, x, ',');
    if x != "" && exists k :: 0 <= k < |parts| && Strip(parts[k]) == x {
      assert x in Kept(parts);
    }
    if x in Kept(parts) {
      var k :| 0 <= k < |parts| && Strip(parts[k]) == x;
      assert x != "" && Strip(Split(setting, ',')[k]) == x;
    }
  }


  // ---------------------------------------------------------------------------
  // negotiation_status (main.py:495-527)

  /** One agent row: the supplier it negotiates with, the supplier's name if the store has one, and the `completed` flag of each of its messages (a missing flag reads as false). */
  datatype AgentRow = AgentRow(supplierId: string, supplierName: Option<string>, completedFlags: seq<bool>)

  /** One entry of the `agents` list in the response. */
  datatype AgentStatus = AgentStatus(supplierId: string, supplierName: Option<string>, messageCount: nat, completed: bool)

  datatype StatusReport = StatusReport(negotiationId: string, allCompleted: bool, agents: seq<AgentStatus>)

  /** `any(...)` over the messages of one conversation (main.py:503). */
  function AnyCompleted(flags: seq<bool>): (r: bool)
    ensures r <==> exists i :: 0 <= i < |flags| && flags[i]
  {
    if flags == [] then false else flags[0] || AnyCompleted(flags[1..])
  }

  /** `all(...)` over the agent entries (main.py:521). */
  function EveryCompleted(agents: seq<AgentStatus>): (r: bool)
    ensures r <==> forall i :: 0 <= i < |agents| ==> agents[i].completed
  {
    if agents == [] then true else agents[0].completed && EveryCompleted(agents[1..])
  }

  /** main.py:521: false when there are no agents, else whether every one is completed. */
  function AllCompleted(agents: seq<AgentStatus>): (r: bool)
    ensures r <==> |agents| > 0 && forall i :: 0 <= i < |agents| ==> agents[i].completed
  {
    if agents != [] then EveryCompleted(agents) else false
  }

  /**
   * The response of `negotiation_status` for the agent rows of a negotiation: one entry per
   * row in the same order, carrying its message count and whether any message is marked
   * completed, and `all_completed` true exactly when there is at least one agent and each has
   * a completed message.
   */
  method NegotiationStatus(negotiationId: string, rows: seq<AgentRow>) returns (report: StatusReport)
    ensures report.negotiationId == negotiationId && |report.agents| == |rows|
    ensures forall i :: 0 <= i < |rows| ==>
              report.agents[i] == AgentStatus(rows[i].supplierId, rows[i].supplierName,
                                              |rows[i].completedFlags|, AnyCompleted(rows[i].completedFlags))
    ensures report.allCompleted <==>
              |rows| > 0 && forall i :: 0 <= i < |rows| ==> AnyCompleted(rows[i].completedFlags)
  {
    var response: seq<AgentStatus> := [];
    for i := 0 to |rows|
      invariant |response| == i
      invariant forall j :: 0 <= j < i ==>
                  response[j] == AgentStatus(rows[j].supplierId, rows[j].supplierName,
                                             |rows[j].completedFlags|, AnyCompleted(rows[j].completedFlags))
    {
      var row := rows[i];
      var isCompleted := AnyCompleted(row.completedFlags);
      response := response + [AgentStatus(row.supplierId, row.supplierName, |row.completedFlags|, isCompleted)];
    }
    report := StatusReport(negotiationId, AllCompleted(response), response);
    assert forall i :: 0 <= i < |rows| ==> response[i].completed == AnyCompleted(rows[i].completedFlags);
  }
}
