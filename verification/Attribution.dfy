/** Which rows of a chunk a batch delete leaves as failed: messages are mapped back to
    files by their prefix, and what cannot be mapped fails every row not named. */
module Attribution {
  import opened Bans
  import opened BatchDelete
  import Text

  /** The message starts with one of the row's keys and a colon. */
  predicate Names(x: Item, m: string) {
    exists k :: k in Keys(x) && k + [':'] <= m
  }

  /** The file of the first row that the message names. */
  function AttributedTo(chunk: seq<Item>, m: string): Option<string> {
    if chunk == [] then None
    else if Names(chunk[0], m) then Some(FileOf(chunk[0]))
    else AttributedTo(chunk[1..], m)
  }

  lemma {:induction false} FirstNamed(chunk: seq<Item>, m: string) returns (i: nat)
    requires exists r :: 0 <= r < |chunk| && Names(chunk[r], m)
    ensures i < |chunk| && Names(chunk[i], m) && forall h | 0 <= h < i :: !Names(chunk[h], m)
    ensures AttributedTo(chunk, m) == Some(FileOf(chunk[i]))
  {
    hide Names, FileOf;
    if Names(chunk[0], m) {
      i := 0;
    } else {
      var r :| 0 <= r < |chunk| && Names(chunk[r], m);
      assert Names(chunk[1..][r - 1], m);
      var h := FirstNamed(chunk[1..], m);
      i := h + 1;
      assert forall g | 1 <= g < i :: !Names(chunk[1..][g - 1], m) && chunk[1..][g - 1] == chunk[g];
    }
  }

  lemma {:induction false} NobodyNamed(chunk: seq<Item>, m: string)
    requires forall r | 0 <= r < |chunk| :: !Names(chunk[r], m)
    ensures AttributedTo(chunk, m) == None
  {
    if chunk != [] {
      NobodyNamed(chunk[1..], m);
    }
  }

  /** The last message for each file named. */
  function ByFile(chunk: seq<Item>, messages: seq<string>): map<string, string> {
    if messages == [] then map[]
    else
      var n := |messages| - 1;
      var m := Text.Trim(messages[n]);
      var earlier := ByFile(chunk, messages[..n]);
      if m == "" || AttributedTo(chunk, m).None? then earlier
      else earlier[AttributedTo(chunk, m).value := m]
  }

  function Unmapped(chunk: seq<Item>, messages: seq<string>): seq<string> {
    if messages == [] then []
    else
      var n := |messages| - 1;
      var m := Text.Trim(messages[n]);
      Unmapped(chunk, messages[..n]) + if m != "" && AttributedTo(chunk, m).None? then [m] else []
  }

  datatype Outcome =
    | Deleted
    | NamedIn(message: string)
    | NotMapped(id: string, first: string, more: nat)  // printed with the first unmapped message
    | NameMissing(id: string)

  function FirstHit(byFile: map<string, string>, fields: seq<string>): (r: Option<string>)
    ensures r.None? <==> forall i | 0 <= i < |fields| :: Text.Blank(fields[i]) || Text.Trim(fields[i]) !in byFile
  {
    if fields == [] then None
    else
      var k := Text.Trim(fields[0]);
      if k != "" && k in byFile then Some(byFile[k])
      else
        var r := FirstHit(byFile, fields[1..]);
        assert forall i | 1 <= i < |fields| :: fields[i] == fields[1..][i - 1];
        r
  }

  function IdOf(x: Item): string {
    var id := Text.FirstNonEmpty([x.authIndex, x.fileName, x.name, x.email]);
    if id == "" then "unknown" else id
  }

  /** A message of its own first, then any unmapped message, then the missing name. */
  function OutcomeOf(byFile: map<string, string>, unmapped: seq<string>, x: Item): Outcome {
    var file := FileOf(x);
    if file != "" && file in byFile then NamedIn(byFile[file])
    else
      var hit := FirstHit(byFile, Fields(x));
      if hit.Some? then NamedIn(hit.value)
      else if unmapped != [] then NotMapped(IdOf(x), unmapped[0], |unmapped| - 1)
      else if file == "" then NameMissing(IdOf(x))
      else Deleted
  }

  function OutcomeIn(chunk: seq<Item>, messages: seq<string>, x: Item): Outcome {
    OutcomeOf(ByFile(chunk, messages), Unmapped(chunk, messages), x)
  }

  // ---- The loops ------------------------------------------------------------------

  method NamedBy(x: Item, m: string) returns (named: bool)
    ensures named <==> Names(x, m)
  {
    hide FileOf;
    var fields := Fields(x);
    for i := 0 to |fields|
      invariant forall j | 0 <= j < i :: Text.Blank(fields[j]) || !(Text.Trim(fields[j]) + [':'] <= m)
    {
      var key := Text.Trim(fields[i]);
      if key != "" && key + [':'] <= m {
        assert key in Keys(x);
        return true;
      }
    }
    named := false;
  }

  /** The empty string stands for a message nobody is named by. */
  method Attribute(chunk: seq<Item>, m: string) returns (file: string)
    ensures file == "" <==> AttributedTo(chunk, m).None?
    ensures file != "" ==> AttributedTo(chunk, m) == Some(file)
  {
    hide FileOf, Names;
    for i := 0 to |chunk|
      invariant forall j | 0 <= j < i :: !Names(chunk[j], m)
    {
      var named := NamedBy(chunk[i], m);
      if named {
        ghost var first := FirstNamed(chunk, m);
        NamedHasFile(chunk[i], m);
        return FileOf(chunk[i]);
      }
    }
    NobodyNamed(chunk, m);
    file := "";
  }

  lemma NamedHasFile(x: Item, m: string)
    requires Names(x, m)
    ensures FileOf(x) != ""
  {
    hide FileOf;
    KeysAreTrimmed(x);
  }

  method ItemFailureMessages(chunk: seq<Item>, messages: seq<string>) returns (out: seq<Outcome>)
    ensures |out| == |chunk|
    ensures forall i | 0 <= i < |chunk| :: out[i] == OutcomeIn(chunk, messages, chunk[i])
  {
    hide FileOf, AttributedTo, OutcomeOf;
    var failedByFile: map<string, string>, unmapped := map[], [];
    for i := 0 to |messages|
      invariant failedByFile == ByFile(chunk, messages[..i])
      invariant unmapped == Unmapped(chunk, messages[..i])
    {
      assert messages[..i + 1][..i] == messages[..i];
      var m := Text.Trim(messages[i]);
      if m == "" {
        continue;
      }
      var file := Attribute(chunk, m);
      if file == "" {
        unmapped := unmapped + [m];
      } else {
        failedByFile := failedByFile[file := m];
      }
    }
    assert messages[..|messages|] == messages;
    out := [];
    for i := 0 to |chunk|
      invariant |out| == i
      invariant forall j | 0 <= j < i :: out[j] == OutcomeIn(chunk, messages, chunk[j])
    {
      out := out + [OutcomeOf(failedByFile, unmapped, chunk[i])];
    }
  }

  // ---- When a row counts as deleted --------------------------------------------------

  lemma {:induction false} ByFileIff(chunk: seq<Item>, messages: seq<string>, f: string)
    ensures f in ByFile(chunk, messages) <==>
      exists i :: 0 <= i < |messages| && Text.Trim(messages[i]) != "" &&
        AttributedTo(chunk, Text.Trim(messages[i])) == Some(f)
  {
    hide AttributedTo, Text.Trim;
    if messages != [] {
      var n := |messages| - 1;
      ByFileIff(chunk, messages[..n], f);
      assert forall i | 0 <= i < n :: messages[..n][i] == messages[i];
    }
  }

  lemma {:induction false} UnmappedIff(chunk: seq<Item>, messages: seq<string>)
    ensures Unmapped(chunk, messages) == [] <==>
      forall i | 0 <= i < |messages| && Text.Trim(messages[i]) != "" ::
        AttributedTo(chunk, Text.Trim(messages[i])).Some?
  {
    hide AttributedTo, Text.Trim;
    if messages != [] {
      var n := |messages| - 1;
      UnmappedIff(chunk, messages[..n]);
      assert forall i | 0 <= i < n :: messages[..n][i] == messages[i];
    }
  }

  /** A row counts as deleted exactly when it has a file, every message could be mapped,
      and none was mapped to a file that is one of the row's keys. */
  lemma DeletedIff(chunk: seq<Item>, messages: seq<string>, x: Item)
    ensures OutcomeIn(chunk, messages, x) == Deleted <==>
      && FileOf(x) != ""
      && forall i | 0 <= i < |messages| :: Text.Trim(messages[i]) == "" ||
           (var a := AttributedTo(chunk, Text.Trim(messages[i])); a.Some? && a.value !in Keys(x))
  {
    hide AttributedTo, Text.Trim, FileOf;
    UnmappedIff(chunk, messages);
    KeysAreTrimmed(x);
    var byFile := ByFile(chunk, messages);
    forall f
      ensures f in byFile <==>
        exists i :: 0 <= i < |messages| && Text.Trim(messages[i]) != "" &&
          AttributedTo(chunk, Text.Trim(messages[i])) == Some(f)
    {
      ByFileIff(chunk, messages, f);
    }
    MissIff(byFile, x);
  }

  lemma MissIff(byFile: map<string, string>, x: Item)
    ensures FirstHit(byFile, Fields(x)).None? <==> forall k | k in Keys(x) :: k !in byFile
  {
    hide FileOf;
    var fields := Fields(x);
    if FirstHit(byFile, fields).None? {
      forall k | k in Keys(x) ensures k !in byFile {
        var i :| 0 <= i < |fields| && Text.Trim(fields[i]) == k && !Text.Blank(fields[i]);
      }
    }
  }

  // ---- What a failed row is told --------------------------------------------------------

  predicate MappedTo(chunk: seq<Item>, m: string, f: string) {
    !Text.Blank(m) && AttributedTo(chunk, Text.Trim(m)) == Some(f)
  }

  predicate NotMappable(chunk: seq<Item>, m: string) {
    !Text.Blank(m) && AttributedTo(chunk, Text.Trim(m)).None?
  }

  lemma {:induction false} LastMessageOfFile(chunk: seq<Item>, messages: seq<string>, f: string, i: nat)
    requires i < |messages| && MappedTo(chunk, messages[i], f)
    requires forall j | i < j < |messages| :: !MappedTo(chunk, messages[j], f)
    ensures f in ByFile(chunk, messages) && ByFile(chunk, messages)[f] == Text.Trim(messages[i])
  {
    hide AttributedTo, Text.Trim;
    var n := |messages| - 1;
    if i < n {
      assert !MappedTo(chunk, messages[n], f);
      LastMessageOfFile(chunk, messages[..n], f, i);
    }
  }

  lemma {:induction false} FirstUnmapped(chunk: seq<Item>, messages: seq<string>, i: nat)
    requires i < |messages| && NotMappable(chunk, messages[i])
    requires forall j | 0 <= j < i :: !NotMappable(chunk, messages[j])
    ensures Unmapped(chunk, messages) != [] && Unmapped(chunk, messages)[0] == Text.Trim(messages[i])
  {
    hide AttributedTo, Text.Trim;
    var n := |messages| - 1;
    if i < n {
      FirstUnmapped(chunk, messages[..n], i);
    } else {
      NoneUnmapped(chunk, messages[..n]);
    }
  }

  lemma {:induction false} NoneUnmapped(chunk: seq<Item>, messages: seq<string>)
    requires forall j | 0 <= j < |messages| :: !NotMappable(chunk, messages[j])
    ensures Unmapped(chunk, messages) == []
  {
    hide AttributedTo, Text.Trim;
    if messages != [] {
      var n := |messages| - 1;
      assert !NotMappable(chunk, messages[n]);
      NoneUnmapped(chunk, messages[..n]);
    }
  }

  /** A row is told the last message of its own file. */
  lemma OwnMessageIsTold(chunk: seq<Item>, messages: seq<string>, x: Item, i: nat)
    requires FileOf(x) != "" && i < |messages| && MappedTo(chunk, messages[i], FileOf(x))
    requires forall j | i < j < |messages| :: !MappedTo(chunk, messages[j], FileOf(x))
    ensures OutcomeIn(chunk, messages, x) == NamedIn(Text.Trim(messages[i]))
  {
    hide AttributedTo, Text.Trim, FileOf;
    LastMessageOfFile(chunk, messages, FileOf(x), i);
  }

  /** A row that no message could be mapped to... */
  ghost predicate NothingMapped(chunk: seq<Item>, messages: seq<string>, x: Item) {
    forall i, k | 0 <= i < |messages| && k in Keys(x) :: !MappedTo(chunk, messages[i], k)
  }

  lemma NoHit(chunk: seq<Item>, messages: seq<string>, x: Item)
    requires NothingMapped(chunk, messages, x)
    ensures FirstHit(ByFile(chunk, messages), Fields(x)).None?
    ensures FileOf(x) == "" || FileOf(x) !in ByFile(chunk, messages)
  {
    hide AttributedTo, Text.Trim, FileOf;
    KeysAreTrimmed(x);
    var byFile := ByFile(chunk, messages);
    forall k | k in Keys(x) ensures k !in byFile {
      ByFileIff(chunk, messages, k);
      assert forall i | 0 <= i < |messages| :: !MappedTo(chunk, messages[i], k);
    }
    MissIff(byFile, x);
  }

  /** ... is told the first message that could not be mapped at all, if there is one... */
  lemma UnmappedIsTold(chunk: seq<Item>, messages: seq<string>, x: Item, i: nat)
    requires NothingMapped(chunk, messages, x) && i < |messages| && NotMappable(chunk, messages[i])
    requires forall j | 0 <= j < i :: !NotMappable(chunk, messages[j])
    ensures var o := OutcomeIn(chunk, messages, x);
      o.NotMapped? && (o.id, o.first) == (IdOf(x), Text.Trim(messages[i])) && o.more + 1 == |Unmapped(chunk, messages)|
  {
    hide AttributedTo, Text.Trim, FileOf, IdOf, FirstHit, NothingMapped;
    NoHit(chunk, messages, x);
    FirstUnmapped(chunk, messages, i);
  }

  /** ... else that it has no file name, if it has none, and else counts as deleted. */
  lemma NamelessIsTold(chunk: seq<Item>, messages: seq<string>, x: Item)
    requires NothingMapped(chunk, messages, x) && forall i | 0 <= i < |messages| :: !NotMappable(chunk, messages[i])
    ensures OutcomeIn(chunk, messages, x) == if FileOf(x) == "" then NameMissing(IdOf(x)) else Deleted
  {
    hide AttributedTo, Text.Trim, FileOf, IdOf, FirstHit, NothingMapped;
    NoHit(chunk, messages, x);
    NoneUnmapped(chunk, messages);
  }

  // ---- When messages can be read back ----------------------------------------------------

  /** Some error text makes a message labelled `l` start with `k` and a colon. */
  predicate Confusable(k: string, l: string) {
    || k + [':'] <= l + [':']
    || (|k| > |l| + 2 && l + [':', ' '] <= k && !Text.IsSpace(k[|l| + 2]))
  }

  lemma {:induction false} TrimRightKeeps(s: string, n: nat)
    requires 0 < n <= |s| && !Text.IsSpace(s[n - 1])
    ensures s[..n] <= Text.TrimRight(s)
    decreases |s|
  {
    if Text.IsSpace(s[|s| - 1]) {
      TrimRightKeeps(s[..|s| - 1], n);
      assert s[..|s| - 1][..n] == s[..n];
    }
  }

  /** A label is not changed by trimming the message it starts. */
  lemma TrimKeepsLabel(l: string, e: string)
    requires l != "" && Text.Trimmed(l)
    ensures var m := l + ": " + e; l + [':'] <= Text.Trim(m) <= m
  {
    var m := l + ": " + e;
    assert m[0] == l[0];
    assert Text.TrimLeft(m) == m;
    assert m[|l|] == ':';
    TrimRightKeeps(m, |l| + 1);
    assert m[..|l| + 1] == l + [':'];
  }

  lemma ConfusedOnlyIf(k: string, l: string, e: string)
    requires k != "" && Text.Trimmed(k) && l != "" && Text.Trimmed(l) && Starts(e)
    requires k + [':'] <= Text.Trim(l + ": " + e)
    ensures Confusable(k, l)
  {
    TrimKeepsLabel(l, e);
    var m := l + ": " + e;
    assert k + [':'] <= m;
    assert m[..|k| + 1] == k + [':'];
    assert m[|k|] == ':' && m[|l|] == ':' && m[|l| + 1] == ' ';
    if |k| <= |l| {
      assert forall i | 0 <= i < |k| :: k[i] == m[i] == l[i];
    } else {
      assert |k| != |l| + 1;
      assert k[|l| + 1] == m[|l| + 1] == ' ';
      assert |k| > |l| + 2;
      assert m[|l| + 2] == e[0] == k[|l| + 2];
      assert forall i | 0 <= i < |l| + 2 :: k[i] == m[i] == (l + [':', ' '])[i];
    }
  }

  lemma ConfusedIf(k: string, l: string) returns (e: string)
    requires k != "" && Text.Trimmed(k) && l != "" && Text.Trimmed(l) && Confusable(k, l)
    ensures e != "" && Text.Trimmed(e)
    ensures k + [':'] <= Text.Trim(l + ": " + e)
  {
    if k + [':'] <= l + [':'] {
      e := "x";
      assert e[0] == 'x';
      TrimKeepsLabel(l, e);
    } else {
      e := k[|l| + 2..] + [':', 'x'];
      assert e[0] == k[|l| + 2] && e[|e| - 1] == 'x';
      var m := l + ": " + e;
      assert m == k + [':', 'x'];
      assert m[0] == l[0] && m[|m| - 1] == 'x';
      assert Text.Trim(m) == m;
    }
  }

  /** Every row has a trimmed display name, as the job's rows do. */
  ghost predicate Tidy(chunk: seq<Item>) {
    forall i | 0 <= i < |chunk| :: chunk[i].name != "" && Text.Trimmed(chunk[i].name)
  }

  /** No row carries another row's file among its keys. */
  ghost predicate OwnFiles(chunk: seq<Item>) {
    forall i, j | 0 <= i < |chunk| && 0 <= j < |chunk| && FileOf(chunk[i]) != FileOf(chunk[j]) ::
      FileOf(chunk[i]) !in Keys(chunk[j])
  }

  /** No key of a row can be taken for the start of a later row's message. */
  ghost predicate ClearLabels(chunk: seq<Item>) {
    forall i, j, k | 0 <= i < j < |chunk| && Leads(chunk, j) && FileOf(chunk[i]) != FileOf(chunk[j]) &&
                     k in Keys(chunk[i]) ::
      !Confusable(k, chunk[j].name)
  }

  /** An error text of a failed call starts with its words. */
  ghost predicate Plausible(reply: Remote) {
    reply.CallFailed? ==> Starts(reply.message)
  }

  function MessageFor(x: Item, e: string): string {
    Text.Trim(x.name + ": " + e)
  }

  lemma TidyRow(x: Item, reply: Remote)
    requires x.name != "" && Text.Trimmed(x.name)
    ensures FileOf(x) != "" && x.name in Keys(x) && LabelOf(x, reply) == x.name
  {
    assert Text.Trim(x.name) == x.name;
    var fields := [x.fileName, x.name, x.authIndex, x.email];
    assert !Text.Blank(fields[1]);
    assert Fields(x)[0] == x.name;
    hide FileOf;
    var labels := [x.name, FileOf(x), x.authIndex];
    assert labels[0] == x.name && !Text.Blank(labels[0]);
  }

  lemma ReportedStarts(reply: Remote, requested: set<string>, f: string)
    requires Plausible(reply) && Reported(reply, requested, f).Some?
    ensures Starts(Reported(reply, requested, f).value)
  {
  }

  /** The messages of a batch of tidy rows are one for each leading row with a failure. */
  lemma {:induction false} MessageOfRow(chunk: seq<Item>, reply: Remote, rows: seq<nat>, j: nat)
    requires Tidy(chunk) && InRange(rows, |chunk|) && j in rows && j < |chunk|
    requires Reported(reply, Requested(chunk), FileOf(chunk[j])).Some?
    ensures chunk[j].name + ": " + Reported(reply, Requested(chunk), FileOf(chunk[j])).value in
      Messages(chunk, reply, rows)
  {
    hide FileOf, Reported, Requested, LabelOf;
    var n := |rows| - 1;
    TidyRow(chunk[rows[n]], reply);
    if j != rows[n] {
      MessageOfRow(chunk, reply, rows[..n], j);
    }
  }

  lemma {:induction false} RowOfMessage(chunk: seq<Item>, reply: Remote, rows: seq<nat>, i: nat) returns (j: nat)
    requires Tidy(chunk) && InRange(rows, |chunk|) && i < |Messages(chunk, reply, rows)|
    ensures j in rows && j < |chunk| && Reported(reply, Requested(chunk), FileOf(chunk[j])).Some?
    ensures Messages(chunk, reply, rows)[i] ==
      chunk[j].name + ": " + Reported(reply, Requested(chunk), FileOf(chunk[j])).value
  {
    hide FileOf, Reported, Requested, LabelOf;
    var n := |rows| - 1;
    TidyRow(chunk[rows[n]], reply);
    if i < |Messages(chunk, reply, rows[..n])| {
      j := RowOfMessage(chunk, reply, rows[..n], i);
      assert rows[..n] <= rows;
    } else {
      j := rows[n];
    }
  }

  lemma {:induction false} NobodyNameless(chunk: seq<Item>, k: nat)
    requires Tidy(chunk) && k <= |chunk|
    ensures NamelessMessages(chunk, k) == []
    decreases k
  {
    hide FileOf, LabelOf, Keys, Text.Trimmed;
    if k > 0 {
      TidyRow(chunk[k - 1], Plain([]));
      NobodyNameless(chunk, k - 1);
    }
  }

  lemma NamesItself(chunk: seq<Item>, j: nat, e: string)
    requires Tidy(chunk) && j < |chunk|
    ensures Names(chunk[j], MessageFor(chunk[j], e)) && MessageFor(chunk[j], e) != ""
  {
    hide FileOf, LabelOf;
    var x := chunk[j];
    TidyRow(x, Plain([]));
    TrimKeepsLabel(x.name, e);
    assert x.name in Keys(x) && x.name + [':'] <= MessageFor(x, e);
  }

  lemma AttributedToOwn(chunk: seq<Item>, j: nat, e: string)
    requires Tidy(chunk) && ClearLabels(chunk) && Leads(chunk, j) && Starts(e)
    ensures AttributedTo(chunk, MessageFor(chunk[j], e)) == Some(FileOf(chunk[j]))
    ensures MessageFor(chunk[j], e) != ""
  {
    hide FileOf, Keys, Confusable, Text.Trim;
    NamesItself(chunk, j, e);
    var m := MessageFor(chunk[j], e);
    var i := FirstNamed(chunk, m);
    if i < j && FileOf(chunk[i]) != FileOf(chunk[j]) {
      var k :| k in Keys(chunk[i]) && k + [':'] <= m;
      KeysAreTrimmed(chunk[i]);
      ConfusedOnlyIf(k, chunk[j].name, e);
      assert false;
    }
  }

  /** With clear labels and files of their own, the accounting is exact. */
  lemma DeletedIffConfirmed(chunk: seq<Item>, reply: Remote, j: nat)
    requires Tidy(chunk) && OwnFiles(chunk) && ClearLabels(chunk) && Plausible(reply) && j < |chunk|
    ensures OutcomeIn(chunk, Failures(chunk, reply), chunk[j]) == Deleted <==>
      !Unconfirmed(chunk, reply, FileOf(chunk[j]))
  {
    hide FileOf, Reported, Requested, ClearLabels, Leaders, OutcomeIn, AttributedTo, Messages, Keys, Text.Trim, LabelOf;
    hide Unconfirmed;
    TidyRow(chunk[j], reply);
    ReportedIff(chunk, reply, FileOf(chunk[j]));
    if Unconfirmed(chunk, reply, FileOf(chunk[j])) {
      UnconfirmedIsNotDeleted(chunk, reply, j);
    } else {
      var messages := Failures(chunk, reply);
      forall i | 0 <= i < |messages|
        ensures var a := AttributedTo(chunk, Text.Trim(messages[i])); a.Some? && a.value !in Keys(chunk[j])
      {
        var r := OriginOfMessage(chunk, reply, i);
        ReportedStarts(reply, Requested(chunk), FileOf(chunk[r]));
        AttributedToOwn(chunk, r, Reported(reply, Requested(chunk), FileOf(chunk[r])).value);
      }
      DeletedIff(chunk, messages, chunk[j]);
    }
  }

  lemma OriginOfMessage(chunk: seq<Item>, reply: Remote, i: nat) returns (r: nat)
    requires Tidy(chunk) && i < |Failures(chunk, reply)|
    ensures Leads(chunk, r) && Reported(reply, Requested(chunk), FileOf(chunk[r])).Some?
    ensures Text.Trim(Failures(chunk, reply)[i]) ==
      MessageFor(chunk[r], Reported(reply, Requested(chunk), FileOf(chunk[r])).value)
  {
    hide FileOf, Reported, Requested, Leaders, Messages, Text.Trim, NamelessMessages;
    NobodyNameless(chunk, |chunk|);
    r := RowOfMessage(chunk, reply, Leaders(chunk, |chunk|), i);
    LeadersIff(chunk, |chunk|, r);
  }

  /** Clear labels alone make the accounting fail-closed. */
  lemma UnconfirmedIsNotDeleted(chunk: seq<Item>, reply: Remote, j: nat)
    requires Tidy(chunk) && ClearLabels(chunk) && Plausible(reply) && j < |chunk|
    requires Unconfirmed(chunk, reply, FileOf(chunk[j]))
    ensures OutcomeIn(chunk, Failures(chunk, reply), chunk[j]) != Deleted
  {
    hide FileOf, Reported, Requested, ClearLabels, Leaders, OutcomeIn, AttributedTo, Messages, Keys, Text.Trim;
    hide LabelOf, NamelessMessages, Unconfirmed;
    ReportedIff(chunk, reply, FileOf(chunk[j]));
    TidyRow(chunk[j], reply);
    var lead := LeaderOf(chunk, j);
    LeadersIff(chunk, |chunk|, lead);
    MessageOfRow(chunk, reply, Leaders(chunk, |chunk|), lead);
    NobodyNameless(chunk, |chunk|);
    var messages := Failures(chunk, reply);
    var e := Reported(reply, Requested(chunk), FileOf(chunk[lead])).value;
    assert messages == Messages(chunk, reply, Leaders(chunk, |chunk|));
    var i :| 0 <= i < |messages| && messages[i] == chunk[lead].name + ": " + e;
    ReportedStarts(reply, Requested(chunk), FileOf(chunk[lead]));
    AttributedToOwn(chunk, lead, e);
    KeysAreTrimmed(chunk[j]);
    DeletedIff(chunk, messages, chunk[j]);
  }

  /** No row whose delete is not confirmed counts as deleted. */
  ghost predicate FailClosed(chunk: seq<Item>, reply: Remote) {
    forall j | 0 <= j < |chunk| ::
      Unconfirmed(chunk, reply, FileOf(chunk[j])) ==> OutcomeIn(chunk, Failures(chunk, reply), chunk[j]) != Deleted
  }

  /** One file failed, and its message is taken for that of an earlier row. */
  lemma MisreadMessage(chunk: seq<Item>, i: nat, j: nat, k: string) returns (reply: Remote)
    requires Tidy(chunk) && OwnFiles(chunk) && i < j && Leads(chunk, j) && FileOf(chunk[i]) != FileOf(chunk[j])
    requires k in Keys(chunk[i]) && Confusable(k, chunk[j].name)
    ensures Plausible(reply) && !FailClosed(chunk, reply)
  {
    hide FileOf, Keys, Confusable, Text.Trim, Leaders, OutcomeIn, AttributedTo, Messages, Requested;
    hide NamelessMessages, Reported, Unconfirmed;
    KeysAreTrimmed(chunk[i]);
    var e := ConfusedIf(k, chunk[j].name);
    reply := MultiStatus(FailedList([Entry(FileOf(chunk[j]), e)]));
    OnlyFailure(chunk, j, e);
    ReportedIff(chunk, reply, FileOf(chunk[j]));
    var m := MessageFor(chunk[j], e);
    assert Names(chunk[i], m);
    var first := FirstNamed(chunk, m);
    var messages := Failures(chunk, reply);
    forall n | 0 <= n < |messages|
      ensures AttributedTo(chunk, Text.Trim(messages[n])) == Some(FileOf(chunk[first]))
    {
      var r := OriginOfMessage(chunk, reply, n);
      assert r == j;
    }
    assert FileOf(chunk[first]) != FileOf(chunk[j]);
    DeletedIff(chunk, messages, chunk[j]);
  }

  lemma OnlyFailure(chunk: seq<Item>, j: nat, e: string)
    requires Leads(chunk, j) && e != "" && Text.Trimmed(e)
    ensures var reply := MultiStatus(FailedList([Entry(FileOf(chunk[j]), e)]));
      && Reported(reply, Requested(chunk), FileOf(chunk[j])) == Some(e)
      && forall f | f != FileOf(chunk[j]) :: Reported(reply, Requested(chunk), f).None?
  {
    var f := FileOf(chunk[j]);
    FilesUpToIff(chunk, |chunk|, f);
    assert Text.Trim(f) == f && Text.Trim(e) == e;
    hide FileOf, Requested, Text.Trim, Text.Trimmed;
    var entries := [Entry(f, e)];
    assert !BadEntry(entries[0], Requested(chunk));
    assert entries[..0] == [];
    assert ListComplaint(entries, Requested(chunk)).None?;
  }

  /** The shortest text that every message of a label begins with if it begins with the key
      and a colon. */
  function Reach(k: string, l: string): string {
    if k + [':'] <= l + [':'] then l + [':', ' '] else k + [':']
  }

  /** The first row named by that text. */
  predicate FirstByReach(chunk: seq<Item>, i: nat, k: string, l: string) {
    && i < |chunk| && k in Keys(chunk[i]) && Confusable(k, l)
    && forall h | 0 <= h < i :: !Names(chunk[h], Reach(k, l))
  }

  predicate SharesFile(chunk: seq<Item>, x: nat, j: nat) {
    x < |chunk| && j < |chunk| && FileOf(chunk[x]) == FileOf(chunk[j])
  }

  /** Whichever row a failure message can name first, its file is among the keys of every
      row whose file failed. */
  ghost predicate Traceable(chunk: seq<Item>) {
    forall i: nat, j: nat, k, x: nat ::
      Leads(chunk, j) && FirstByReach(chunk, i, k, chunk[j].name) && SharesFile(chunk, x, j) ==>
        FileOf(chunk[i]) in Keys(chunk[x])
  }

  lemma MessageReaches(k: string, l: string, e: string)
    requires l != "" && Text.Trimmed(l) && Starts(e) && k + [':'] <= Text.Trim(l + ": " + e)
    ensures Reach(k, l) <= Text.Trim(l + ": " + e)
  {
    if k + [':'] <= l + [':'] {
      var m := l + ": " + e;
      assert m[0] == l[0] && Text.TrimLeft(m) == m;
      assert m[|l| + 2] == e[0];
      TrimRightKeeps(m, |l| + 3);
      assert m[..|l| + 3][..|l| + 2] == l + [':', ' '];
    }
  }

  lemma LongerTextNamesMore(x: Item, t: string, m: string)
    requires t <= m && Names(x, t)
    ensures Names(x, m)
  {
  }

  /** The row that a message names first is the first one within its reach. */
  lemma FirstNamedIsTraceable(chunk: seq<Item>, j: nat, e: string) returns (i: nat, k: string)
    requires Tidy(chunk) && Leads(chunk, j) && Starts(e)
    ensures FirstByReach(chunk, i, k, chunk[j].name) && MessageFor(chunk[j], e) != ""
    ensures i < |chunk| && AttributedTo(chunk, MessageFor(chunk[j], e)) == Some(FileOf(chunk[i]))
  {
    hide FileOf, Keys, Confusable, Text.Trim, Reach;
    NamesItself(chunk, j, e);
    var l, m := chunk[j].name, MessageFor(chunk[j], e);
    i := FirstNamed(chunk, m);
    k :| k in Keys(chunk[i]) && k + [':'] <= m;
    KeysAreTrimmed(chunk[i]);
    ConfusedOnlyIf(k, l, e);
    MessageReaches(k, l, e);
    forall h | 0 <= h < i ensures !Names(chunk[h], Reach(k, l)) {
      if Names(chunk[h], Reach(k, l)) {
        LongerTextNamesMore(chunk[h], Reach(k, l), m);
      }
    }
  }

  lemma TraceableIsFailClosed(chunk: seq<Item>, reply: Remote, x: nat)
    requires Tidy(chunk) && Traceable(chunk) && Plausible(reply) && x < |chunk|
    requires Unconfirmed(chunk, reply, FileOf(chunk[x]))
    ensures OutcomeIn(chunk, Failures(chunk, reply), chunk[x]) != Deleted
  {
    hide FileOf, Reported, Requested, Leaders, OutcomeIn, AttributedTo, Messages, Keys, Text.Trim, LabelOf;
    hide NamelessMessages, FirstByReach, Unconfirmed;
    ReportedIff(chunk, reply, FileOf(chunk[x]));
    TidyRow(chunk[x], reply);
    var lead := LeaderOf(chunk, x);
    LeadersIff(chunk, |chunk|, lead);
    MessageOfRow(chunk, reply, Leaders(chunk, |chunk|), lead);
    NobodyNameless(chunk, |chunk|);
    var messages := Failures(chunk, reply);
    var e := Reported(reply, Requested(chunk), FileOf(chunk[lead])).value;
    assert messages == Messages(chunk, reply, Leaders(chunk, |chunk|));
    var n :| 0 <= n < |messages| && messages[n] == chunk[lead].name + ": " + e;
    ReportedStarts(reply, Requested(chunk), FileOf(chunk[lead]));
    var i, k := FirstNamedIsTraceable(chunk, lead, e);
    assert SharesFile(chunk, x, lead) && FileOf(chunk[i]) in Keys(chunk[x]);
    DeletedIff(chunk, messages, chunk[x]);
  }

  /** An error text that carries the message just past the reach. */
  lemma JustPastReach(k: string, l: string) returns (e: string)
    requires k != "" && Text.Trimmed(k) && l != "" && Text.Trimmed(l) && Confusable(k, l)
    ensures e != "" && Text.Trimmed(e) && Text.Trim(l + ": " + e) == Reach(k, l) + ['x']
  {
    e := if k + [':'] <= l + [':'] then "x" else k[|l| + 2..] + [':', 'x'];
    var m := l + ": " + e;
    assert e[|e| - 1] == 'x' && e[0] == if k + [':'] <= l + [':'] then 'x' else k[|l| + 2];
    assert m == Reach(k, l) + ['x'];
    assert m[0] == l[0] && m[|m| - 1] == 'x';
    assert Text.Trim(m) == m;
  }

  lemma NamedByReach(x: Item, t: string)
    requires Names(x, t + ['x'])
    ensures Names(x, t)
  {
    var k :| k in Keys(x) && k + [':'] <= t + ['x'];
    assert (k + [':'])[|k|] == ':';
    assert k + [':'] <= t;
  }

  /** One file failed, and a row of it counts as deleted. */
  lemma UntracedFailure(chunk: seq<Item>, i: nat, j: nat, k: string, x: nat) returns (reply: Remote)
    requires Tidy(chunk) && Leads(chunk, j) && FirstByReach(chunk, i, k, chunk[j].name)
    requires x < |chunk| && FileOf(chunk[x]) == FileOf(chunk[j]) && FileOf(chunk[i]) !in Keys(chunk[x])
    ensures Plausible(reply) && !FailClosed(chunk, reply)
  {
    hide FileOf, Keys, Confusable, Text.Trim, Leaders, OutcomeIn, AttributedTo, Messages, Requested, NamelessMessages;
    hide Reported, Reach, Unconfirmed;
    KeysAreTrimmed(chunk[i]);
    TidyRow(chunk[x], Plain([]));
    var l := chunk[j].name;
    var e := JustPastReach(k, l);
    reply := MultiStatus(FailedList([Entry(FileOf(chunk[j]), e)]));
    OnlyFailure(chunk, j, e);
    ReportedIff(chunk, reply, FileOf(chunk[j]));
    var m := MessageFor(chunk[j], e);
    KeyReaches(k, l);
    assert Names(chunk[i], m);
    var first := FirstNamed(chunk, m);
    if first < i {
      NamedByReach(chunk[first], Reach(k, l));
    }
    assert first == i;
    var messages := Failures(chunk, reply);
    forall n | 0 <= n < |messages|
      ensures AttributedTo(chunk, Text.Trim(messages[n])) == Some(FileOf(chunk[i]))
    {
      var r := OriginOfMessage(chunk, reply, n);
      assert r == j;
    }
    DeletedIff(chunk, messages, chunk[x]);
  }

  lemma KeyReaches(k: string, l: string)
    ensures k + [':'] <= Reach(k, l) + ['x']
  {
    if k + [':'] <= l + [':'] {
      assert l + [':'] <= Reach(k, l) + ['x'];
    }
  }

  /** The accounting is fail-closed, whatever the remote side answers, exactly when every
      failure can be traced. */
  lemma FailClosedIff(chunk: seq<Item>)
    requires Tidy(chunk)
    ensures (forall reply | Plausible(reply) :: FailClosed(chunk, reply)) <==> Traceable(chunk)
  {
    hide FileOf, Keys, Names, Reach, Confusable, OutcomeIn, Failures, Unconfirmed;
    if Traceable(chunk) {
      forall reply | Plausible(reply) ensures FailClosed(chunk, reply) {
        forall x | 0 <= x < |chunk| && Unconfirmed(chunk, reply, FileOf(chunk[x]))
          ensures OutcomeIn(chunk, Failures(chunk, reply), chunk[x]) != Deleted
        {
          TraceableIsFailClosed(chunk, reply, x);
        }
      }
    } else {
      var i: nat, j: nat, k, x: nat :|
        Leads(chunk, j) && FirstByReach(chunk, i, k, chunk[j].name) && SharesFile(chunk, x, j) &&
        FileOf(chunk[i]) !in Keys(chunk[x]);
      var reply := UntracedFailure(chunk, i, j, k, x);
    }
  }

  /** For rows with files of their own that is so exactly when the labels are clear. */
  lemma ClearLabelsIff(chunk: seq<Item>)
    requires Tidy(chunk) && OwnFiles(chunk)
    ensures (forall reply | Plausible(reply) :: FailClosed(chunk, reply)) <==> ClearLabels(chunk)
  {
    hide FileOf, Keys, Confusable, OutcomeIn, Failures, Unconfirmed;
    if ClearLabels(chunk) {
      forall reply | Plausible(reply) ensures FailClosed(chunk, reply) {
        forall j | 0 <= j < |chunk| && Unconfirmed(chunk, reply, FileOf(chunk[j]))
          ensures OutcomeIn(chunk, Failures(chunk, reply), chunk[j]) != Deleted
        {
          UnconfirmedIsNotDeleted(chunk, reply, j);
        }
      }
    } else {
      var i, j, k :| 0 <= i < j < |chunk| && Leads(chunk, j) && FileOf(chunk[i]) != FileOf(chunk[j]) &&
        k in Keys(chunk[i]) && Confusable(k, chunk[j].name);
      var reply := MisreadMessage(chunk, i, j, k);
    }
  }

  // ---- The answers, one by one ---------------------------------------------------------

  /** After a refused call no row counts as deleted. */
  lemma RefusedCallDeletesNothing(chunk: seq<Item>, message: string, x: nat)
    requires Tidy(chunk) && Traceable(chunk) && Starts(message) && x < |chunk|
    ensures OutcomeIn(chunk, Failures(chunk, CallFailed(message, false)), chunk[x]) != Deleted
  {
    hide Tidy, Traceable, Starts, OutcomeIn, Failures, FileOf;
    TraceableIsFailClosed(chunk, CallFailed(message, false), x);
  }

  /** After a call that found nothing every row does. */
  lemma GoneFilesAreDeleted(chunk: seq<Item>, message: string, x: nat)
    requires Tidy(chunk) && x < |chunk|
    ensures OutcomeIn(chunk, Failures(chunk, CallFailed(message, true)), chunk[x]) == Deleted
  {
    var reply := CallFailed(message, true);
    TidyRow(chunk[x], reply);
    hide OutcomeIn, FileOf, Keys, LabelOf, Leaders, Messages, NamelessMessages;
    FailedCallMessages(chunk, reply);
    NobodyNameless(chunk, |chunk|);
    DeletedIff(chunk, Failures(chunk, reply), chunk[x]);
  }

  /** After a multi-status answer that cannot be read no row counts as deleted; nor does a
      row whose file some entry of the answer names. */
  lemma NamedOrUnreadableIsNotDeleted(chunk: seq<Item>, reply: Remote, x: nat)
    requires Tidy(chunk) && Traceable(chunk) && x < |chunk|
    requires
      || (reply.MultiStatus? && !Readable(chunk, reply.body))
      || (reply.MultiStatus? && reply.body.FailedList? && Mentions(reply.body.entries, FileOf(chunk[x])))
      || (reply.Plain? && Mentions(reply.entries, FileOf(chunk[x])))
    ensures OutcomeIn(chunk, Failures(chunk, reply), chunk[x]) != Deleted
  {
    hide Tidy, Traceable, OutcomeIn, Failures, FileOf, Mentions, Readable;
    TraceableIsFailClosed(chunk, reply, x);
  }

  /** A row that no entry names counts as deleted, if the answer can be read and names can
      be told apart. */
  lemma UnnamedIsDeleted(chunk: seq<Item>, reply: Remote, x: nat)
    requires Tidy(chunk) && OwnFiles(chunk) && ClearLabels(chunk) && x < |chunk|
    requires
      || (reply.MultiStatus? && Readable(chunk, reply.body) && !Mentions(reply.body.entries, FileOf(chunk[x])))
      || (reply.Plain? && !Mentions(reply.entries, FileOf(chunk[x])))
    ensures OutcomeIn(chunk, Failures(chunk, reply), chunk[x]) == Deleted
  {
    hide Tidy, ClearLabels, OwnFiles, OutcomeIn, Failures, FileOf, Mentions, Readable;
    DeletedIffConfirmed(chunk, reply, x);
  }

  /** Two different files under one display name are never clear. */
  lemma SharedNameIsNotClear(chunk: seq<Item>, i: nat, j: nat)
    requires Tidy(chunk) && i < j && Leads(chunk, j)
    requires chunk[i].name == chunk[j].name && FileOf(chunk[i]) != FileOf(chunk[j])
    ensures !ClearLabels(chunk)
  {
    hide FileOf, Keys, LabelOf;
    TidyRow(chunk[i], Plain([]));
    assert Confusable(chunk[j].name, chunk[j].name);
  }

  /** Where no row carries another's file, failures can be traced iff the labels are clear. */
  lemma TraceableIffClear(chunk: seq<Item>)
    requires Tidy(chunk) && OwnFiles(chunk)
    ensures Traceable(chunk) <==> ClearLabels(chunk)
  {
    hide OwnFiles, Tidy, ClearLabels, Traceable, FailClosed;
    FailClosedIff(chunk);
    ClearLabelsIff(chunk);
  }
}
