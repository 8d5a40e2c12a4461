/** One remote call that deletes many files, and the reading of its failure messages back
    into one outcome for each row. */
module BatchDelete {
  import opened Bans
  import Text

  datatype Item = Item(authIndex: string, name: string, fileName: string, email: string)

  /** The physical file deleted for a row. */
  function FileOf(x: Item): string {
    Text.FirstNonEmpty([x.fileName, x.name, x.authIndex, x.email])
  }

  function Fields(x: Item): seq<string> {
    [x.name, x.fileName, x.authIndex, x.email, FileOf(x)]
  }

  /** The texts a failure message of this row may start with. */
  function Keys(x: Item): set<string> {
    set f | f in Fields(x) && !Text.Blank(f) :: Text.Trim(f)
  }

  lemma KeysAreTrimmed(x: Item)
    ensures forall k | k in Keys(x) :: k != "" && Text.Trimmed(k)
    ensures FileOf(x) != "" ==> FileOf(x) in Keys(x)
    ensures FileOf(x) == "" ==> Keys(x) == {}
  {
    var fields := [x.fileName, x.name, x.authIndex, x.email];
    if FileOf(x) == "" {
      assert forall i | 0 <= i < 4 :: Text.Blank(fields[i]);
      assert Text.Blank(fields[0]) && Text.Blank(fields[1]) && Text.Blank(fields[2]) && Text.Blank(fields[3]);
      assert Text.Trim("") == "";
    } else {
      assert Fields(x)[4] == FileOf(x);
    }
  }

  // ---- The remote answer -----------------------------------------------------------

  datatype Entry = Entry(name: string, error: string)

  /** The body of a multi-status answer, decoded. */
  datatype Body =
    | NoBody
    | Malformed(detail: string)
    | NoFailedField
    | FailedIsNull
    | FailedIsNoArray
    | FailedList(entries: seq<Entry>)

  /** `gone`: the error text says that the files are not there. `Plain` is any other
      accepted status, with the failures that could be read from its body. */
  datatype Remote = CallFailed(message: string, gone: bool) | MultiStatus(body: Body) | Plain(entries: seq<Entry>)

  function ErrorText(e: Entry): (t: string)
    ensures t != "" && Text.Trimmed(t)
  {
    if Text.Blank(e.error) then "delete failed" else Text.Trim(e.error)
  }

  predicate Mentions(entries: seq<Entry>, file: string) {
    exists i :: 0 <= i < |entries| && Text.Trim(entries[i].name) == file
  }

  /** The last entry for this file carries this text. */
  predicate LastTells(entries: seq<Entry>, file: string, i: nat, text: string) {
    && i < |entries| && Text.Trim(entries[i].name) == file
    && (forall j | i < j < |entries| :: Text.Trim(entries[j].name) != file)
    && text == if Text.Blank(entries[i].error) then "delete failed" else Text.Trim(entries[i].error)
  }

  /** The error of the last entry for this file. */
  function LastError(entries: seq<Entry>, file: string): (r: Option<string>)
    ensures r.Some? <==> Mentions(entries, file)
    ensures r.Some? ==> r.value != "" && Text.Trimmed(r.value)
  {
    if entries == [] then None
    else
      var n := |entries| - 1;
      if Text.Trim(entries[n].name) == file then Some(ErrorText(entries[n]))
      else
        var r := LastError(entries[..n], file);
        assert forall i | 0 <= i < n :: entries[i] == entries[..n][i];
        r
  }

  lemma {:induction false} LastErrorTells(entries: seq<Entry>, file: string) returns (i: nat)
    requires Mentions(entries, file)
    ensures LastTells(entries, file, i, LastError(entries, file).value)
  {
    hide Text.Trim;
    var n := |entries| - 1;
    if Text.Trim(entries[n].name) == file {
      i := n;
    } else {
      i := LastErrorTells(entries[..n], file);
      assert forall j | 0 <= j < n :: entries[j] == entries[..n][j];
    }
  }

  /** Non-empty and not starting with white space. */
  predicate Starts(s: string) {
    s != "" && !Text.IsSpace(s[0])
  }

  /** An entry that makes a multi-status answer unusable. */
  predicate BadEntry(e: Entry, requested: set<string>) {
    Text.Blank(e.name) || Text.Trim(e.name) !in requested
  }

  const MULTI := "multi-status delete "

  function EntryComplaint(e: Entry): (r: string)
    ensures Starts(r)
  {
    assert MULTI[0] == 'm';
    if Text.Blank(e.name) then MULTI + "failure missing name"
    else MULTI + ("failure for unknown name \"" + Text.Trim(e.name) + "\"")
  }

  function ListComplaint(entries: seq<Entry>, requested: set<string>): (r: Option<string>)
    ensures r.None? <==> forall i | 0 <= i < |entries| :: !BadEntry(entries[i], requested)
    ensures r.Some? ==> Starts(r.value)
  {
    if entries == [] then None
    else if BadEntry(entries[0], requested) then Some(EntryComplaint(entries[0]))
    else
      var r := ListComplaint(entries[1..], requested);
      assert forall i | 1 <= i < |entries| :: entries[i] == entries[1..][i - 1];
      r
  }

  /** Why the answer cannot be attributed to the files sent, if it cannot. */
  function Complaint(body: Body, requested: set<string>): (r: Option<string>)
    ensures r.Some? ==> Starts(r.value)
    ensures r.None? ==> body.FailedList?
  {
    assert MULTI[0] == 'm';
    match body
    case NoBody => Some(MULTI + "response missing body")
    case Malformed(detail) => Some(MULTI + ("response unusable: " + detail))
    case NoFailedField => Some(MULTI + "response missing failed array")
    case FailedIsNull => Some(MULTI + "response failed is null")
    case FailedIsNoArray => Some(MULTI + "response failed is not an array")
    case FailedList(entries) => ListComplaint(entries, requested)
  }

  /** The remote failure reported for one of the requested files. */
  function Reported(reply: Remote, requested: set<string>, file: string): Option<string> {
    match reply
    case CallFailed(message, gone) => if gone then None else Some(message)
    case MultiStatus(body) =>
      var c := Complaint(body, requested);
      if c.Some? then c else LastError(body.entries, file)
    case Plain(entries) => LastError(entries, file)
  }

  /** A multi-status answer that can be read: a list of failures, each of a file that was sent. */
  ghost predicate Readable(items: seq<Item>, body: Body) {
    && body.FailedList?
    && forall i | 0 <= i < |body.entries| ::
         !Text.Blank(body.entries[i].name) && Sends(items, Text.Trim(body.entries[i].name))
  }

  ghost predicate Sends(items: seq<Item>, file: string) {
    exists j :: 0 <= j < |items| && FileOf(items[j]) == file
  }

  /** The answer leaves open whether this file is gone, or says that it is not. */
  ghost predicate Unconfirmed(items: seq<Item>, reply: Remote, file: string) {
    match reply
    case CallFailed(_, gone) => !gone
    case MultiStatus(body) => !Readable(items, body) || Mentions(body.entries, file)
    case Plain(entries) => Mentions(entries, file)
  }

  /** A failure is reported for a file exactly if its delete is not confirmed. */
  lemma ReportedIff(items: seq<Item>, reply: Remote, file: string)
    ensures Reported(reply, Requested(items), file).Some? <==> Unconfirmed(items, reply, file)
    ensures reply.CallFailed? && !reply.gone ==> Reported(reply, Requested(items), file) == Some(reply.message)
  {
    hide FileOf, Requested, Text.Trim;
    if reply.MultiStatus? && reply.body.FailedList? {
      forall i | 0 <= i < |reply.body.entries|
        ensures BadEntry(reply.body.entries[i], Requested(items)) <==>
          Text.Blank(reply.body.entries[i].name) || !Sends(items, Text.Trim(reply.body.entries[i].name))
      {
        WhatIsRequested(items, Text.Trim(reply.body.entries[i].name));
      }
    }
  }

  lemma WhatIsRequested(items: seq<Item>, file: string)
    ensures file in Requested(items) <==> file != "" && Sends(items, file)
  {
    hide FileOf;
    FilesUpToIff(items, |items|, file);
  }

  datatype Parsed = FailedNames(failed: map<string, string>) | Unreadable(why: string)

  method ParseMultiStatus(body: Body, requested: set<string>) returns (p: Parsed)
    ensures p.Unreadable? <==> Complaint(body, requested).Some?
    ensures p.Unreadable? ==> p.why == Complaint(body, requested).value
    ensures p.FailedNames? ==> body.FailedList? && Collected(p.failed, body.entries)
  {
    hide Collected, BadEntry, EntryComplaint, ListComplaint;
    if !body.FailedList? {
      return Unreadable(Complaint(body, requested).value);
    }
    var failed: map<string, string> := map[];
    NothingCollected();
    for i := 0 to |body.entries|
      invariant forall j | 0 <= j < i :: !BadEntry(body.entries[j], requested)
      invariant Collected(failed, body.entries[..i])
    {
      var e := body.entries[i];
      if BadEntry(e, requested) {
        FirstComplaint(body.entries, requested, i);
        return Unreadable(EntryComplaint(e));
      }
      OneMoreCollected(failed, body.entries[..i], e);
      assert body.entries[..i + 1] == body.entries[..i] + [e];
      failed := failed[Text.Trim(e.name) := ErrorText(e)];
    }
    assert body.entries[..|body.entries|] == body.entries;
    p := FailedNames(failed);
  }

  /** Every name mentioned, with its last error. */
  ghost predicate Collected(failed: map<string, string>, entries: seq<Entry>) {
    && (forall f :: f in failed <==> LastError(entries, f).Some?)
    && forall f | f in failed :: failed[f] == LastError(entries, f).value
  }

  lemma NothingCollected()
    ensures Collected(map[], [])
  {
  }

  lemma OneMoreCollected(failed: map<string, string>, entries: seq<Entry>, e: Entry)
    requires Collected(failed, entries)
    ensures Collected(failed[Text.Trim(e.name) := ErrorText(e)], entries + [e])
  {
    assert (entries + [e])[..|entries|] == entries;
    hide Text.Trim, ErrorText;
  }

  lemma {:induction false} FirstComplaint(entries: seq<Entry>, requested: set<string>, i: nat)
    requires i < |entries| && BadEntry(entries[i], requested)
    requires forall j | 0 <= j < i :: !BadEntry(entries[j], requested)
    ensures ListComplaint(entries, requested) == Some(EntryComplaint(entries[i]))
  {
    if i > 0 {
      FirstComplaint(entries[1..], requested, i - 1);
    }
  }

  /** Nameless entries are skipped, unknown names are kept. */
  method ParseLenient(entries: seq<Entry>) returns (failed: map<string, string>)
    ensures forall f :: f in failed <==> f != "" && LastError(entries, f).Some?
    ensures forall f | f in failed :: failed[f] == LastError(entries, f).value
  {
    failed := map[];
    for i := 0 to |entries|
      invariant forall f :: f in failed <==> f != "" && LastError(entries[..i], f).Some?
      invariant forall f | f in failed :: failed[f] == LastError(entries[..i], f).value
    {
      assert entries[..i + 1][..i] == entries[..i];
      if !Text.Blank(entries[i].name) {
        failed := failed[Text.Trim(entries[i].name) := ErrorText(entries[i])];
      }
    }
    assert entries[..|entries|] == entries;
  }

  // ---- The batch call --------------------------------------------------------------

  function FilesUpTo(items: seq<Item>, k: nat): set<string>
    requires k <= |items|
  {
    if k == 0 then {}
    else FilesUpTo(items, k - 1) + if FileOf(items[k - 1]) == "" then {} else {FileOf(items[k - 1])}
  }

  lemma {:induction false} FilesUpToIff(items: seq<Item>, k: nat, f: string)
    requires k <= |items|
    ensures f in FilesUpTo(items, k) <==> f != "" && exists j :: 0 <= j < k && FileOf(items[j]) == f
    decreases k
  {
    hide FileOf;
    if k > 0 {
      FilesUpToIff(items, k - 1, f);
    }
  }

  function Requested(items: seq<Item>): set<string> {
    FilesUpTo(items, |items|)
  }

  predicate InRange(rows: seq<nat>, n: nat) {
    forall i | 0 <= i < |rows| :: rows[i] < n
  }

  /** The first row with its file. */
  predicate Leads(items: seq<Item>, j: nat) {
    j < |items| && FileOf(items[j]) != "" && forall i | 0 <= i < j :: FileOf(items[i]) != FileOf(items[j])
  }

  /** The rows among the first `k` whose files are sent. */
  function Leaders(items: seq<Item>, k: nat): (r: seq<nat>)
    requires k <= |items|
    ensures InRange(r, k)
  {
    if k == 0 then [] else Leaders(items, k - 1) + if Leads(items, k - 1) then [k - 1] else []
  }

  lemma {:induction false} LeadersIff(items: seq<Item>, k: nat, j: nat)
    requires k <= |items|
    ensures j in Leaders(items, k) <==> j < k && Leads(items, j)
    decreases k
  {
    hide Leads;
    if k > 0 {
      LeadersIff(items, k - 1, j);
    }
  }

  function LabelOf(x: Item, reply: Remote): string {
    if reply.CallFailed? then x.name else Text.FirstNonEmpty([x.name, FileOf(x), x.authIndex])
  }

  function NamelessMessages(items: seq<Item>, k: nat): seq<string>
    requires k <= |items|
  {
    if k == 0 then []
    else
      NamelessMessages(items, k - 1) +
      if FileOf(items[k - 1]) == "" then [items[k - 1].name + ": auth file name missing"] else []
  }

  /** One message for each of the rows whose file the answer reports as failed. */
  function Messages(items: seq<Item>, reply: Remote, rows: seq<nat>): seq<string>
    requires InRange(rows, |items|)
  {
    if rows == [] then []
    else
      var n := |rows| - 1;
      var x := items[rows[n]];
      var e := Reported(reply, Requested(items), FileOf(x));
      Messages(items, reply, rows[..n]) + if e.Some? then [LabelOf(x, reply) + ": " + e.value] else []
  }

  function Failures(items: seq<Item>, reply: Remote): seq<string> {
    NamelessMessages(items, |items|) + Messages(items, reply, Leaders(items, |items|))
  }

  method SendList(items: seq<Item>) returns (rows: seq<nat>, seen: set<string>, failures: seq<string>)
    ensures rows == Leaders(items, |items|) && seen == Requested(items)
    ensures failures == NamelessMessages(items, |items|)
  {
    hide FileOf;
    rows, seen, failures := [], {}, [];
    for i := 0 to |items|
      invariant rows == Leaders(items, i)
      invariant seen == FilesUpTo(items, i)
      invariant failures == NamelessMessages(items, i)
    {
      var file := FileOf(items[i]);
      FilesUpToIff(items, i, file);
      if file == "" {
        failures := failures + [items[i].name + ": auth file name missing"];
      } else if file !in seen {
        seen := seen + {file};
        rows := rows + [i];
      }
    }
  }

  /** `failed` holds what the answer reports for the files sent. */
  ghost predicate Tells(items: seq<Item>, reply: Remote, failed: map<string, string>) {
    forall f | f in Requested(items) ::
      var e := Reported(reply, Requested(items), f);
      (f in failed <==> e.Some?) && (f in failed ==> failed[f] == e.value)
  }

  function Unreported(items: seq<Item>, reply: Remote, rows: seq<nat>): (r: seq<nat>)
    requires InRange(rows, |items|)
  {
    if rows == [] then []
    else
      var n := |rows| - 1;
      Unreported(items, reply, rows[..n]) +
      if Reported(reply, Requested(items), FileOf(items[rows[n]])).None? then [rows[n]] else []
  }

  lemma {:induction false} UnreportedIff(items: seq<Item>, reply: Remote, rows: seq<nat>, j: nat)
    requires InRange(rows, |items|) && j < |items|
    ensures j in Unreported(items, reply, rows) <==>
      j in rows && Reported(reply, Requested(items), FileOf(items[j])).None?
  {
    hide FileOf, Reported, Requested;
    if rows != [] {
      var n := |rows| - 1;
      UnreportedIff(items, reply, rows[..n], j);
      assert j in rows <==> j in rows[..n] || j == rows[n];
    }
  }

  lemma UnreportedInRange(items: seq<Item>, reply: Remote, rows: seq<nat>)
    requires InRange(rows, |items|)
    ensures InRange(Unreported(items, reply, rows), |items|)
  {
    hide FileOf, Reported, Requested;
  }

  method FailRows(items: seq<Item>, reply: Remote, rows: seq<nat>, failed: map<string, string>)
    returns (failures: seq<string>, unreported: seq<nat>)
    requires InRange(rows, |items|) && Tells(items, reply, failed)
    requires forall j | 0 <= j < |rows| :: FileOf(items[rows[j]]) in Requested(items)
    ensures failures == Messages(items, reply, rows)
    ensures unreported == Unreported(items, reply, rows)
  {
    hide FileOf, Reported, Requested, LabelOf;
    failures, unreported := [], [];
    for i := 0 to |rows|
      invariant failures == Messages(items, reply, rows[..i])
      invariant unreported == Unreported(items, reply, rows[..i])
    {
      var x := items[rows[i]];
      assert rows[..i + 1][..i] == rows[..i];
      if FileOf(x) in failed {
        failures := failures + [LabelOf(x, reply) + ": " + failed[FileOf(x)]];
      } else {
        unreported := unreported + [rows[i]];
      }
    }
    assert rows[..|rows|] == rows;
  }

  method ReadAnswer(items: seq<Item>, reply: Remote, seen: set<string>) returns (failed: map<string, string>)
    requires seen == Requested(items)
    ensures Tells(items, reply, failed)
  {
    hide FileOf, Requested, Complaint, LastError;
    match reply
    case CallFailed(message, gone) =>
      failed := if gone then map[] else map f | f in seen :: message;
    case MultiStatus(body) =>
      var p := ParseMultiStatus(body, seen);
      failed := if p.Unreadable? then map f | f in seen :: p.why else p.failed;
    case Plain(entries) =>
      failed := ParseLenient(entries);
      NoBlankRequested(items);
  }

  lemma NoBlankRequested(items: seq<Item>)
    ensures "" !in Requested(items)
  {
    hide FileOf;
    FilesUpToIff(items, |items|, "");
  }

  lemma LeadersAreRequested(items: seq<Item>)
    ensures forall j | 0 <= j < |Leaders(items, |items|)| ::
      FileOf(items[Leaders(items, |items|)[j]]) in Requested(items)
  {
    hide FileOf;
    var rows := Leaders(items, |items|);
    forall j | 0 <= j < |rows| ensures FileOf(items[rows[j]]) in Requested(items) {
      assert rows[j] in rows;
      LeadersIff(items, |items|, rows[j]);
      FilesUpToIff(items, |items|, FileOf(items[rows[j]]));
    }
  }

  /** The failure messages, and the rows to clear locally if that is left to this call. */
  method DeleteBatch(
      items: seq<Item>, reply: Remote, clearLocal: bool)
      returns (failures: seq<string>, cleared: seq<nat>)
    ensures failures == Failures(items, reply)
    ensures forall j: nat :: j in cleared <==>
      clearLocal && Leads(items, j) && !Unconfirmed(items, reply, FileOf(items[j]))
    ensures reply.CallFailed? && !reply.gone ==>
      cleared == [] && forall j: nat | Leads(items, j) :: items[j].name + ": " + reply.message in failures
    ensures reply.CallFailed? && reply.gone ==>
      failures == NamelessMessages(items, |items|) && forall j: nat | Leads(items, j) && clearLocal :: j in cleared
    ensures reply.MultiStatus? && !Readable(items, reply.body) ==> cleared == []
    ensures failures == [] <==>
      forall j | 0 <= j < |items| :: FileOf(items[j]) != "" && !Unconfirmed(items, reply, FileOf(items[j]))
  {
    hide FileOf, Requested, Reported, Messages, Unreported, Leaders, NamelessMessages;
    var rows, seen, nameless := SendList(items);
    var failed := ReadAnswer(items, reply, seen);
    LeadersAreRequested(items);
    var messages, unreported := FailRows(items, reply, rows, failed);
    failures := nameless + messages;
    cleared := if clearLocal then unreported else [];
    forall j: nat
      ensures j in unreported <==> Leads(items, j) && !Unconfirmed(items, reply, FileOf(items[j]))
    {
      WhoIsUnreported(items, reply, j);
    }
    NobodyCleared(items, reply, cleared);
    NothingReportedIff(items, reply);
    if reply.CallFailed? {
      FailedCallMessages(items, reply);
    }
  }

  lemma NobodyCleared(items: seq<Item>, reply: Remote, cleared: seq<nat>)
    requires forall j | j in cleared :: Leads(items, j) && !Unconfirmed(items, reply, FileOf(items[j]))
    ensures reply.CallFailed? && !reply.gone ==> cleared == []
    ensures reply.MultiStatus? && !Readable(items, reply.body) ==> cleared == []
  {
    hide FileOf, Leads, Readable;
    if cleared != [] {
      assert cleared[0] in cleared;
    }
  }

  /** A refused call gives one message for each file sent, one that finds nothing none. */
  lemma FailedCallMessages(items: seq<Item>, reply: Remote)
    requires reply.CallFailed?
    ensures reply.gone ==> Failures(items, reply) == NamelessMessages(items, |items|)
    ensures !reply.gone ==>
      forall j: nat | Leads(items, j) :: items[j].name + ": " + reply.message in Failures(items, reply)
  {
    hide FileOf, Leaders, Requested, Reported, Messages, NamelessMessages;
    var rows := Leaders(items, |items|);
    if reply.gone {
      NoMessages(items, reply, rows);
    } else {
      forall j: nat | Leads(items, j) ensures items[j].name + ": " + reply.message in Messages(items, reply, rows) {
        LeadersIff(items, |items|, j);
        RefusedRow(items, reply, rows, j);
      }
    }
  }

  /** Nothing is reported exactly if every row has a file and the answer confirms the delete
      of each. */
  lemma NothingReportedIff(items: seq<Item>, reply: Remote)
    ensures Failures(items, reply) == [] <==>
      forall j | 0 <= j < |items| :: FileOf(items[j]) != "" && !Unconfirmed(items, reply, FileOf(items[j]))
  {
    hide FileOf, Leaders, Requested, Reported, Messages, NamelessMessages, Unconfirmed;
    var rows := Leaders(items, |items|);
    NamelessIff(items, |items|);
    NoMessagesIff(items, reply, rows);
    if Failures(items, reply) == [] {
      forall j | 0 <= j < |items| ensures !Unconfirmed(items, reply, FileOf(items[j])) {
        var lead := LeaderOf(items, j);
        LeadersIff(items, |items|, lead);
        ReportedIff(items, reply, FileOf(items[j]));
      }
    } else {
      if forall j | 0 <= j < |items| :: FileOf(items[j]) != "" && !Unconfirmed(items, reply, FileOf(items[j])) {
        var j :| j in rows && Reported(reply, Requested(items), FileOf(items[j])).Some?;
        ReportedIff(items, reply, FileOf(items[j]));
      }
    }
  }

  lemma {:induction false} NamelessIff(items: seq<Item>, k: nat)
    requires k <= |items|
    ensures NamelessMessages(items, k) == [] <==> forall j | 0 <= j < k :: FileOf(items[j]) != ""
    decreases k
  {
    hide FileOf;
    if k > 0 {
      NamelessIff(items, k - 1);
    }
  }

  lemma {:induction false} NoMessagesIff(items: seq<Item>, reply: Remote, rows: seq<nat>)
    requires InRange(rows, |items|)
    ensures Messages(items, reply, rows) == [] <==>
      forall j | j in rows :: Reported(reply, Requested(items), FileOf(items[j])).None?
  {
    hide FileOf, Requested, Reported;
    if rows != [] {
      var n := |rows| - 1;
      NoMessagesIff(items, reply, rows[..n]);
      assert forall j :: j in rows <==> j in rows[..n] || j == rows[n];
    }
  }

  lemma {:induction false} LeaderOf(items: seq<Item>, j: nat) returns (lead: nat)
    requires j < |items| && FileOf(items[j]) != ""
    ensures lead <= j && Leads(items, lead) && FileOf(items[lead]) == FileOf(items[j])
    decreases j
  {
    hide FileOf;
    if i :| 0 <= i < j && FileOf(items[i]) == FileOf(items[j]) {
      lead := LeaderOf(items, i);
    } else {
      lead := j;
    }
  }

  lemma {:induction false} NoMessages(items: seq<Item>, reply: Remote, rows: seq<nat>)
    requires InRange(rows, |items|) && reply.CallFailed? && reply.gone
    ensures Messages(items, reply, rows) == []
  {
    hide FileOf, Requested;
    if rows != [] {
      NoMessages(items, reply, rows[..|rows| - 1]);
    }
  }

  lemma {:induction false} RefusedRow(items: seq<Item>, reply: Remote, rows: seq<nat>, j: nat)
    requires InRange(rows, |items|) && reply.CallFailed? && !reply.gone && j in rows && j < |items|
    ensures items[j].name + ": " + reply.message in Messages(items, reply, rows)
  {
    hide FileOf, Requested;
    var n := |rows| - 1;
    if j != rows[n] {
      RefusedRow(items, reply, rows[..n], j);
    }
  }

  lemma WhoIsUnreported(items: seq<Item>, reply: Remote, j: nat)
    ensures j in Unreported(items, reply, Leaders(items, |items|)) <==>
      Leads(items, j) && !Unconfirmed(items, reply, FileOf(items[j]))
  {
    hide FileOf, Reported, Requested, Unreported, Leaders, Unconfirmed;
    var rows := Leaders(items, |items|);
    if j < |items| {
      ReportedIff(items, reply, FileOf(items[j]));
      UnreportedIff(items, reply, rows, j);
      LeadersIff(items, |items|, j);
    } else {
      UnreportedInRange(items, reply, rows);
    }
  }
}
