/** The jobs of the shared slot: which row a ban id stands for, the delete job in chunks
    with its counters, and the unban job. */
module DeleteJob {
  import opened Bans
  import opened Identity
  import opened BatchDelete
  import opened Attribution
  import opened Engine
  import Text

  // ---- From a ban id to a row -------------------------------------------------------

  function RowTokens(r: Row): seq<string> {
    [Text.Trim(r.authIndex), Text.Trim(r.fileName), Text.Trim(r.fileId), Text.Trim(r.name), Text.Trim(r.email)]
  }

  function HostTokens(f: AuthFile): seq<string> {
    [Text.Trim(f.authIndex), Text.Trim(f.name), Text.Trim(f.id), Text.Trim(f.email), Text.Trim(f.labelText)]
  }

  datatype Match = NoMatch | Ambiguous | Unique(at: nat)

  /** Rows with the same five tokens are the same row. */
  ghost predicate Matches(rows: seq<seq<string>>, id: string, m: Match) {
    match m
    case NoMatch => forall i | 0 <= i < |rows| :: id !in rows[i]
    case Ambiguous => exists i, j :: 0 <= i < j < |rows| && id in rows[i] && id in rows[j] && rows[i] != rows[j]
    case Unique(n) =>
      && n < |rows| && id in rows[n]
      && (forall i | 0 <= i < n :: id !in rows[i])
      && forall i | 0 <= i < |rows| && id in rows[i] :: rows[i] == rows[n]
  }

  /** The three answers exclude each other. */
  lemma MatchIsDetermined(rows: seq<seq<string>>, id: string, m: Match, n: Match)
    requires Matches(rows, id, m) && Matches(rows, id, n)
    ensures m == n
  {
  }

  /** The answer is the only one there is. */
  method ResolveToken(rows: seq<seq<string>>, id: string) returns (m: Match)
    ensures forall n :: Matches(rows, id, n) <==> n == m
  {
    m := NoMatch;
    for i := 0 to |rows|
      invariant !m.Ambiguous? && Matches(rows[..i], id, m)
    {
      if id !in rows[i] {
        continue;
      }
      if m.NoMatch? {
        m := Unique(i);
      } else if rows[i] != rows[m.at] {
        assert rows[..i][m.at] == rows[m.at];
        OnlyMatch(rows, id, Ambiguous);
        return Ambiguous;
      }
    }
    assert rows[..|rows|] == rows;
    OnlyMatch(rows, id, m);
  }

  lemma OnlyMatch(rows: seq<seq<string>>, id: string, m: Match)
    requires Matches(rows, id, m)
    ensures forall n :: Matches(rows, id, n) <==> n == m
  {
    forall n | Matches(rows, id, n) ensures n == m {
      MatchIsDetermined(rows, id, m, n);
    }
  }

  datatype Resolved = Delete(item: Item) | Skip(id: string)

  datatype Host = NotListed | Listed(files: seq<AuthFile>)

  /** Blank fields are filled in from the others. */
  function Normalized(r: Row, id: string): Item {
    var fileName := if Text.Blank(r.fileName) then Text.FirstNonEmpty([r.name, r.authIndex, id]) else r.fileName;
    var name := if Text.Blank(r.name) then Text.FirstNonEmpty([fileName, r.authIndex, id]) else r.name;
    Item(if Text.Blank(r.authIndex) then id else r.authIndex, name, fileName, r.email)
  }

  function HostItem(f: AuthFile, id: string): Item {
    var fileName := Text.FirstNonEmpty([f.name, f.id, id]);
    Item(Text.FirstNonEmpty([f.authIndex, id]), fileName, fileName, f.email)
  }

  function RowsTokens(rows: seq<Row>): seq<seq<string>> {
    seq(|rows|, i requires 0 <= i < |rows| => RowTokens(rows[i]))
  }

  function FilesTokens(files: seq<AuthFile>): seq<seq<string>> {
    seq(|files|, i requires 0 <= i < |files| => HostTokens(files[i]))
  }

  /** The one inspection row that carries the id, else the one listed entry, else a file of
      that name; never a choice between two. */
  ghost predicate ResolvedFrom(id: string, rows: seq<Row>, host: Host, r: Resolved) {
    exists inRows: Match :: Matches(RowsTokens(rows), id, inRows) &&
      match inRows
      case Unique(n) => r == Delete(Normalized(rows[n], id))
      case Ambiguous => r == Skip(id)
      case NoMatch => FromHost(id, host, r)
  }

  ghost predicate FromHost(id: string, host: Host, r: Resolved) {
    match host
    case NotListed => r == Skip(id)
    case Listed(files) =>
      exists m: Match :: Matches(FilesTokens(files), id, m) &&
        match m
        case Unique(n) => r == Delete(HostItem(files[n], id))
        case Ambiguous => r == Skip(id)
        case NoMatch => r == Delete(Item(id, id, id, ""))
  }

  method ResolveOne(id: string, rows: seq<Row>, host: Host) returns (r: Resolved)
    ensures ResolvedFrom(id, rows, host, r)
  {
    hide Matches, RowTokens, HostTokens, Normalized, HostItem;
    var m := ResolveToken(RowsTokens(rows), id);
    assert Matches(RowsTokens(rows), id, m);
    match m
    case Unique(n) =>
      UniqueInRange(RowsTokens(rows), id, n);
      r := Delete(Normalized(rows[n], id));
    case Ambiguous => r := Skip(id);
    case NoMatch =>
      if host.NotListed? {
        return Skip(id);
      }
      var inHost := ResolveToken(FilesTokens(host.files), id);
      assert Matches(FilesTokens(host.files), id, inHost);
      match inHost
      case Unique(n) =>
        UniqueInRange(FilesTokens(host.files), id, n);
        r := Delete(HostItem(host.files[n], id));
      case Ambiguous => r := Skip(id);
      case NoMatch => r := Delete(Item(id, id, id, ""));
  }

  lemma UniqueInRange(rows: seq<seq<string>>, id: string, n: nat)
    requires Matches(rows, id, Unique(n))
    ensures n < |rows|
  {
  }

  /** The ids to resolve, trimmed; blank ones are skipped. */
  function Given(ids: seq<string>): (r: seq<string>)
    ensures forall i | 0 <= i < |r| :: r[i] != "" && Text.Trimmed(r[i])
  {
    if ids == [] then []
    else
      var n := |ids| - 1;
      Given(ids[..n]) + if Text.Blank(ids[n]) then [] else [Text.Trim(ids[n])]
  }

  /** Each id that is not blank is given once for each time it is listed, in the order of the
      list... */
  lemma {:induction false} EveryIdIsGiven(ids: seq<string>, i: nat)
    requires i < |ids| && !Text.Blank(ids[i])
    ensures |Given(ids[..i])| < |Given(ids)| && Given(ids)[|Given(ids[..i])|] == Text.Trim(ids[i])
  {
    hide Text.Trim;
    var n := |ids| - 1;
    if i < n {
      EveryIdIsGiven(ids[..n], i);
      assert ids[..n][..i] == ids[..i];
    }
  }

  /** ... and nothing else is given. */
  lemma {:induction false} GivenWasListed(ids: seq<string>, k: nat) returns (i: nat)
    requires k < |Given(ids)|
    ensures i < |ids| && !Text.Blank(ids[i]) && |Given(ids[..i])| == k
  {
    hide Text.Trim;
    var n := |ids| - 1;
    if k < |Given(ids[..n])| {
      i := GivenWasListed(ids[..n], k);
      assert ids[..n][..i] == ids[..i];
    } else {
      i := n;
    }
  }

  method BuildAccountResults(ids: seq<string>, rows: seq<Row>, host: Host) returns (out: seq<Resolved>)
    ensures |out| == |Given(ids)|
    ensures forall i | 0 <= i < |out| :: ResolvedFrom(Given(ids)[i], rows, host, out[i])
  {
    hide ResolvedFrom;
    out := [];
    for i := 0 to |ids|
      invariant |out| == |Given(ids[..i])|
      invariant forall j | 0 <= j < |out| :: ResolvedFrom(Given(ids[..i])[j], rows, host, out[j])
    {
      assert ids[..i + 1][..i] == ids[..i];
      var id := Text.Trim(ids[i]);
      if id == "" {
        continue;
      }
      var r := ResolveOne(id, rows, host);
      out := out + [r];
    }
    assert ids[..|ids|] == ids;
  }

  /** The rows a run writes have trimmed names, and so have the rows to delete. */
  lemma ResolvedRowIsTidy(id: string, rows: seq<Row>, host: Host, r: Resolved)
    requires ResolvedFrom(id, rows, host, r) && r.Delete? && id != "" && Text.Trimmed(id)
    requires forall i | 0 <= i < |rows| :: Text.Trimmed(rows[i].name)
    ensures r.item.name != "" && Text.Trimmed(r.item.name)
  {
    hide RowTokens, HostTokens, Text.Trimmed, HostItem, Normalized;
    var inRows: Match :| Matches(RowsTokens(rows), id, inRows) &&
      match inRows
      case Unique(n) => r == Delete(Normalized(rows[n], id))
      case Ambiguous => r == Skip(id)
      case NoMatch => FromHost(id, host, r);
    if inRows.Unique? {
      UniqueInRange(RowsTokens(rows), id, inRows.at);
      NormalizedName(rows[inRows.at], id);
    } else if inRows.NoMatch? {
      forall f ensures HostItem(f, id).name != "" && Text.Trimmed(HostItem(f, id).name) {
        HostName(f, id);
      }
    }
  }

  lemma NormalizedName(r: Row, id: string)
    requires Text.Trimmed(r.name) && id != "" && Text.Trimmed(id)
    ensures Normalized(r, id).name != "" && Text.Trimmed(Normalized(r, id).name)
  {
    if Text.Blank(r.name) {
      var fields := [Normalized(r, id).fileName, r.authIndex, id];
      assert !Text.Blank(fields[2]);
    } else {
      assert Text.Trim(r.name) == r.name;
    }
  }

  lemma HostName(f: AuthFile, id: string)
    requires id != "" && Text.Trimmed(id)
    ensures HostItem(f, id).name != "" && Text.Trimmed(HostItem(f, id).name)
  {
    var fields := [f.name, f.id, id];
    assert !Text.Blank(fields[2]);
  }

  /** The file deleted for an inspection row is its own, if it names one. */
  lemma DeletesOwnFile(r: Row, id: string)
    requires id != "" && Text.Trimmed(id)
    ensures FileOf(Normalized(r, id)) ==
      if !Text.Blank(r.fileName) then Text.Trim(r.fileName) else Text.FirstNonEmpty([r.name, r.authIndex, id])
    ensures FileOf(Normalized(r, id)) != ""
  {
    var x := Normalized(r, id);
    var own := [r.name, r.authIndex, id];
    assert !Text.Blank(own[2]);
    assert Text.Trim(Text.FirstNonEmpty(own)) == Text.FirstNonEmpty(own);
    assert !Text.Blank(x.fileName) && FileOf(x) == Text.Trim(x.fileName);
  }

  /** A row keeps the texts it has. */
  lemma KeepsItsTexts(r: Row, id: string)
    ensures var x := Normalized(r, id);
      && x.email == r.email && x.authIndex == (if Text.Blank(r.authIndex) then id else r.authIndex)
      && (!Text.Blank(r.name) ==> x.name == r.name) && (!Text.Blank(r.fileName) ==> x.fileName == r.fileName)
      && (Text.Blank(r.name) && !Text.Blank(r.fileName) ==> x.name == Text.Trim(r.fileName))
  {
    var x := Normalized(r, id);
    var fields := [x.fileName, r.authIndex, id];
    hide Text.Trim, Text.FirstNonEmpty;
    if !Text.Blank(r.fileName) {
      Text.FirstNonEmptyIs(fields, 0);
    }
  }

  /** A listed entry goes under the name of its file: its name, else its id, else the id given. */
  lemma ListedItem(f: AuthFile, id: string)
    requires id != "" && Text.Trimmed(id)
    ensures var x := HostItem(f, id);
      && x.name == x.fileName && x.email == f.email
      && x.fileName ==
           (if !Text.Blank(f.name) then Text.Trim(f.name) else if !Text.Blank(f.id) then Text.Trim(f.id) else id)
      && x.authIndex == if Text.Blank(f.authIndex) then id else Text.Trim(f.authIndex)
  {
    var own, index := [f.name, f.id, id], [f.authIndex, id];
    assert Text.Trim(id) == id;
    hide Text.Trim, Text.FirstNonEmpty;
    Text.FirstNonEmptyIs(own, if !Text.Blank(f.name) then 0 else if !Text.Blank(f.id) then 1 else 2);
    Text.FirstNonEmptyIs(index, if Text.Blank(f.authIndex) then 1 else 0);
  }

  /** And that file is what is deleted for it. */
  lemma DeletesListedFile(f: AuthFile, id: string)
    requires id != "" && Text.Trimmed(id)
    ensures FileOf(HostItem(f, id)) == HostItem(f, id).fileName
  {
    ListedItem(f, id);
    var x := HostItem(f, id);
    var fields := [x.fileName, x.name, x.authIndex, x.email];
    assert Text.Trim(x.fileName) == x.fileName;
    hide Text.Trim, Text.FirstNonEmpty, HostItem;
    Text.FirstNonEmptyIs(fields, 0);
  }

  /** The file deleted for an id is the id itself or a text of the one row, or else of the one
      listed entry, that carries the id. */
  lemma DeletedFileIsCarried(id: string, rows: seq<Row>, host: Host, r: Resolved)
    requires ResolvedFrom(id, rows, host, r) && r.Delete? && id != "" && Text.Trimmed(id)
    ensures
      || (exists n :: 0 <= n < |rows| && id in RowTokens(rows[n]) && FileOf(r.item) in RowTokens(rows[n]))
      || ((forall n | 0 <= n < |rows| :: id !in RowTokens(rows[n])) && host.Listed? &&
          (FileOf(r.item) == id ||
           exists n :: 0 <= n < |host.files| && id in HostTokens(host.files[n]) &&
             FileOf(r.item) in HostTokens(host.files[n])))
  {
    hide HostItem, Normalized, FileOf, RowTokens, HostTokens;
    var inRows: Match :| Matches(RowsTokens(rows), id, inRows) &&
      match inRows
      case Unique(n) => r == Delete(Normalized(rows[n], id))
      case Ambiguous => r == Skip(id)
      case NoMatch => FromHost(id, host, r);
    if inRows.Unique? {
      RowCarriesFile(rows[inRows.at], id);
    } else {
      assert forall n | 0 <= n < |rows| :: RowsTokens(rows)[n] == RowTokens(rows[n]);
      var inHost: Match :| Matches(FilesTokens(host.files), id, inHost) &&
        match inHost
        case Unique(n) => r == Delete(HostItem(host.files[n], id))
        case Ambiguous => r == Skip(id)
        case NoMatch => r == Delete(Item(id, id, id, ""));
      if inHost.Unique? {
        EntryCarriesFile(host.files[inHost.at], id);
      } else {
        LooseFile(id);
      }
    }
  }

  lemma RowCarriesFile(r: Row, id: string)
    requires id != "" && Text.Trimmed(id) && id in RowTokens(r)
    ensures FileOf(Normalized(r, id)) in RowTokens(r)
  {
    hide Normalized, FileOf, Text.Trim, Text.FirstNonEmpty;
    DeletesOwnFile(r, id);
    var own, tokens := [r.name, r.authIndex, id], RowTokens(r);
    assert tokens[0] == Text.Trim(r.authIndex) && tokens[1] == Text.Trim(r.fileName) && tokens[3] == Text.Trim(r.name);
    Text.FirstNonEmptyIs(own, if !Text.Blank(r.name) then 0 else if !Text.Blank(r.authIndex) then 1 else 2);
  }

  lemma EntryCarriesFile(f: AuthFile, id: string)
    requires id != "" && Text.Trimmed(id) && id in HostTokens(f)
    ensures FileOf(HostItem(f, id)) in HostTokens(f)
  {
    hide HostItem, FileOf, Text.Trim;
    DeletesListedFile(f, id);
    ListedItem(f, id);
    var tokens := HostTokens(f);
    assert tokens[1] == Text.Trim(f.name) && tokens[2] == Text.Trim(f.id);
  }

  lemma LooseFile(id: string)
    requires id != "" && Text.Trimmed(id)
    ensures FileOf(Item(id, id, id, "")) == id
  {
    assert Text.Trim(id) == id;
  }

  /** One of the row's texts, blanks at the ends aside. */
  predicate RowText(r: Row, id: string) {
    || id == Text.Trim(r.authIndex) || id == Text.Trim(r.fileName) || id == Text.Trim(r.fileId)
    || id == Text.Trim(r.name) || id == Text.Trim(r.email)
  }

  predicate EntryText(f: AuthFile, id: string) {
    || id == Text.Trim(f.authIndex) || id == Text.Trim(f.name) || id == Text.Trim(f.id)
    || id == Text.Trim(f.email) || id == Text.Trim(f.labelText)
  }

  /** Two rows that carry the id and differ in a text, or two listed entries if no row carries
      it, and nothing is deleted; a row that carries it alone is what is deleted. */
  lemma NeverAChoice(id: string, rows: seq<Row>, host: Host, r: Resolved, i: nat, t: string)
    requires ResolvedFrom(id, rows, host, r)
    ensures (i < |rows| && RowText(rows[i], id) && RowText(rows[i], t) &&
             exists j :: 0 <= j < |rows| && RowText(rows[j], id) && !RowText(rows[j], t)) ==> r == Skip(id)
    ensures (host.Listed? && (forall n | 0 <= n < |rows| :: !RowText(rows[n], id)) &&
             i < |host.files| && EntryText(host.files[i], id) && EntryText(host.files[i], t) &&
             exists j :: 0 <= j < |host.files| && EntryText(host.files[j], id) && !EntryText(host.files[j], t)) ==>
            r == Skip(id)
    ensures i < |rows| && RowText(rows[i], id) && (forall j | 0 <= j < |rows| && RowText(rows[j], id) :: j == i) ==>
            r == Delete(Normalized(rows[i], id))
    ensures host.NotListed? && (forall n | 0 <= n < |rows| :: !RowText(rows[n], id)) ==> r == Skip(id)
  {
    hide Normalized, HostItem, RowTokens, HostTokens, RowText, EntryText;
    forall n, x | 0 <= n < |rows| ensures x in RowsTokens(rows)[n] <==> RowText(rows[n], x) {
      RowTokensAre(rows[n], x);
    }
    var m: Match :| Matches(RowsTokens(rows), id, m) &&
      match m
      case Unique(n) => r == Delete(Normalized(rows[n], id))
      case Ambiguous => r == Skip(id)
      case NoMatch => FromHost(id, host, r);
    if m.Unique? {
      assert RowText(rows[m.at], id);
    } else if m.Ambiguous? {
      var a, b :| 0 <= a < b < |rows| && id in RowsTokens(rows)[a] && id in RowsTokens(rows)[b] && a != b;
      assert RowText(rows[a], id) && RowText(rows[b], id);
    } else if host.Listed? {
      NeverAChoiceOfEntries(id, host.files, host, r, i, t);
    }
  }

  lemma NeverAChoiceOfEntries(id: string, files: seq<AuthFile>, host: Host, r: Resolved, i: nat, t: string)
    requires host == Listed(files) && FromHost(id, host, r)
    ensures (i < |files| && EntryText(files[i], id) && EntryText(files[i], t) &&
             exists j :: 0 <= j < |files| && EntryText(files[j], id) && !EntryText(files[j], t)) ==> r == Skip(id)
  {
    hide HostItem, HostTokens, EntryText;
    forall n, x | 0 <= n < |files| ensures x in FilesTokens(files)[n] <==> EntryText(files[n], x) {
      EntryTokensAre(files[n], x);
    }
  }

  lemma RowTokensAre(r: Row, x: string)
    ensures x in RowTokens(r) <==> RowText(r, x)
  {
    hide Text.Trim;
  }

  lemma EntryTokensAre(f: AuthFile, x: string)
    ensures x in HostTokens(f) <==> EntryText(f, x)
  {
    hide Text.Trim;
  }

  // ---- The delete job ----------------------------------------------------------------

  const CHUNK: nat := 50

  function Kept(resolved: seq<Resolved>): (items: seq<Item>)
    ensures |items| <= |resolved|
  {
    if resolved == [] then []
    else
      var n := |resolved| - 1;
      Kept(resolved[..n]) + if resolved[n].Delete? then [resolved[n].item] else []
  }

  /** Each row to delete is sent once for each time it was resolved, in that order... */
  lemma {:induction false} EveryDeleteIsKept(resolved: seq<Resolved>, i: nat)
    requires i < |resolved| && resolved[i].Delete?
    ensures |Kept(resolved[..i])| < |Kept(resolved)| && Kept(resolved)[|Kept(resolved[..i])|] == resolved[i].item
  {
    var n := |resolved| - 1;
    if i < n {
      EveryDeleteIsKept(resolved[..n], i);
      assert resolved[..n][..i] == resolved[..i];
    }
  }

  /** ... and nothing else is sent. */
  lemma {:induction false} KeptWasResolved(resolved: seq<Resolved>, k: nat) returns (i: nat)
    requires k < |Kept(resolved)|
    ensures i < |resolved| && resolved[i].Delete? && |Kept(resolved[..i])| == k
  {
    var n := |resolved| - 1;
    if k < |Kept(resolved[..n])| {
      i := KeptWasResolved(resolved[..n], k);
      assert resolved[..n][..i] == resolved[..i];
    } else {
      i := n;
    }
  }

  function Lesser(a: nat, b: nat): nat {
    if a < b then a else b
  }

  function ChunkOf(items: seq<Item>, c: nat): seq<Item> {
    items[Lesser(CHUNK * c, |items|)..Lesser(CHUNK * c + CHUNK, |items|)]
  }

  /** The outcome of row `n`, read from the answer to its chunk. */
  function OutcomeAt(items: seq<Item>, replies: nat -> Remote, n: nat): Outcome
    requires n < |items|
  {
    var chunk := ChunkOf(items, n / CHUNK);
    OutcomeIn(chunk, Failures(chunk, replies(n / CHUNK)), items[n])
  }

  /** The rows among the first `n` that count as deleted. */
  function Confirmed(items: seq<Item>, replies: nat -> Remote, n: nat): (r: seq<Item>)
    requires n <= |items|
    ensures |r| <= n
  {
    if n == 0 then []
    else
      Confirmed(items, replies, n - 1) +
      if OutcomeAt(items, replies, n - 1) == Deleted then [items[n - 1]] else []
  }

  method CountSkipped(job: UnbanJob, run: nat, resolved: seq<Resolved>) returns (items: seq<Item>)
    requires job.running && job.runId == run && job.done == job.deleted == job.failed == 0
    modifies job`done, job`failed
    ensures items == Kept(resolved)
    ensures job.done == job.failed == |resolved| - |items|
  {
    items := [];
    for i := 0 to |resolved|
      invariant items == Kept(resolved[..i])
      invariant job.done == job.failed == i - |items|
    {
      assert resolved[..i + 1][..i] == resolved[..i];
      if resolved[i].Skip? {
        var owns := job.OwnsRun(run);
        if owns {
          job.failed := job.failed + 1;
          job.done := job.done + 1;
        }
        continue;
      }
      items := items + [resolved[i].item];
    }
    assert resolved[..|resolved|] == resolved;
  }

  function Selected(chunk: seq<Item>, out: seq<Outcome>, n: nat): (r: seq<Item>)
    requires n <= |chunk| == |out|
    ensures |r| <= n
  {
    if n == 0 then [] else Selected(chunk, out, n - 1) + if out[n - 1] == Deleted then [chunk[n - 1]] else []
  }

  method Tally(job: UnbanJob, run: nat, chunk: seq<Item>, out: seq<Outcome>) returns (cleared: seq<Item>)
    requires job.running && job.runId == run && |out| == |chunk|
    modifies job`done, job`deleted, job`failed
    ensures cleared == Selected(chunk, out, |chunk|)
    ensures job.done == old(job.done) + |chunk|
    ensures job.deleted == old(job.deleted) + |cleared|
    ensures job.failed == old(job.failed) + |chunk| - |cleared|
  {
    cleared := [];
    for i := 0 to |chunk|
      invariant cleared == Selected(chunk, out, i)
      invariant job.done == old(job.done) + i
      invariant job.deleted == old(job.deleted) + |cleared|
      invariant job.failed == old(job.failed) + i - |cleared|
    {
      if out[i] == Deleted {
        cleared := cleared + [chunk[i]];
      }
      var owns := job.OwnsRun(run);
      if owns {
        if out[i] != Deleted {
          job.failed := job.failed + 1;
        } else {
          job.deleted := job.deleted + 1;
        }
        job.done := job.done + 1;
      }
    }
  }

  lemma {:induction false} ConfirmedInChunk(items: seq<Item>, replies: nat -> Remote, c: nat, out: seq<Outcome>, n: nat)
    requires CHUNK * c < |items|
    requires var chunk := ChunkOf(items, c);
      && n <= |chunk| == |out|
      && CHUNK * c + n <= |items|
      && forall i | 0 <= i < |chunk| :: out[i] == OutcomeIn(chunk, Failures(chunk, replies(c)), chunk[i])
    ensures Confirmed(items, replies, CHUNK * c + n) ==
      Confirmed(items, replies, CHUNK * c) + Selected(ChunkOf(items, c), out, n)
    decreases n
  {
    hide OutcomeIn, Failures, OutcomeAt, ChunkOf;
    if n > 0 {
      ConfirmedInChunk(items, replies, c, out, n - 1);
      RowOfChunk(items, replies, c, n - 1);
    }
  }

  lemma RowOfChunk(items: seq<Item>, replies: nat -> Remote, c: nat, i: nat)
    requires CHUNK * c < |items| && i < |ChunkOf(items, c)|
    ensures CHUNK * c + i < |items| && items[CHUNK * c + i] == ChunkOf(items, c)[i]
    ensures OutcomeAt(items, replies, CHUNK * c + i) ==
      OutcomeIn(ChunkOf(items, c), Failures(ChunkOf(items, c), replies(c)), ChunkOf(items, c)[i])
  {
    hide OutcomeIn, Failures;
    assert (CHUNK * c + i) / CHUNK == c;
  }

  method DeleteChunk(
      job: UnbanJob, run: nat, items: seq<Item>, c: nat, replies: nat -> Remote)
      returns (cleared: seq<Item>)
    requires job.running && job.runId == run && CHUNK * c < |items|
    modifies job`done, job`deleted, job`failed
    ensures var start, end := CHUNK * c, Lesser(CHUNK * c + CHUNK, |items|);
      && Confirmed(items, replies, end) == Confirmed(items, replies, start) + cleared
      && job.done == old(job.done) + (end - start)
      && job.deleted == old(job.deleted) + |cleared|
      && job.failed == old(job.failed) + (end - start) - |cleared|
  {
    hide OutcomeIn, Failures, Selected, Confirmed, Leads, Unconfirmed;
    var chunk := ChunkOf(items, c);
    var messages, unused := DeleteBatch(chunk, replies(c), false);
    var out := ItemFailureMessages(chunk, messages);
    ConfirmedInChunk(items, replies, c, out, |chunk|);
    cleared := Tally(job, run, chunk, out);
  }

  /** The worker up to its persistence step. `activeFor` is how many chunks are begun
      before a stop is noticed. */
  method RunDelete(job: UnbanJob, run: nat, resolved: seq<Resolved>, replies: nat -> Remote, activeFor: nat)
    returns (cleared: seq<Item>)
    requires job.running && job.runId == run && job.total == |resolved|
    requires job.done == job.deleted == job.failed == 0
    modifies job`done, job`deleted, job`failed
    ensures var items := Kept(resolved);
      var sent := Lesser(CHUNK * activeFor, |items|);
      && cleared == Confirmed(items, replies, sent)
      && job.deleted == |cleared|
      && job.done == job.deleted + job.failed == |resolved| - |items| + sent <= job.total
      && (job.done == job.total <==> |items| <= CHUNK * activeFor)
  {
    hide OutcomeAt, ChunkOf;
    var items := CountSkipped(job, run, resolved);
    var c := 0;
    cleared := [];
    while CHUNK * c < |items| && c < activeFor
      invariant c <= activeFor && (c == 0 || CHUNK * c - CHUNK < |items|)
      invariant cleared == Confirmed(items, replies, Lesser(CHUNK * c, |items|))
      invariant job.deleted == |cleared|
      invariant job.done == job.deleted + job.failed == |resolved| - |items| + Lesser(CHUNK * c, |items|)
      decreases activeFor - c
    {
      var more := DeleteChunk(job, run, items, c, replies);
      cleared := cleared + more;
      c := c + 1;
    }
  }

  /** After the rows: either save may fail, and that is one more failure. */
  method PersistState(job: UnbanJob, run: nat, resultsSaved: bool, bansSaved: bool)
    modifies job`failed
    ensures job.failed == old(job.failed) +
      if !(resultsSaved && bansSaved) && job.running && job.runId == run then 1 else 0
  {
    if resultsSaved && bansSaved {
      return;
    }
    var owns := job.OwnsRun(run);
    if owns {
      job.failed := job.failed + 1;
    }
  }

  // ---- What a cleared row was told ------------------------------------------------------

  lemma {:induction false} ConfirmedIff(items: seq<Item>, replies: nat -> Remote, n: nat, x: Item)
    requires n <= |items|
    ensures x in Confirmed(items, replies, n) <==>
      exists i: nat :: i < n && items[i] == x && OutcomeAt(items, replies, i) == Deleted
    decreases n
  {
    hide OutcomeAt;
    if n > 0 {
      ConfirmedIff(items, replies, n - 1, x);
    }
  }

  ghost predicate Separable(items: seq<Item>) {
    forall c: nat | CHUNK * c < |items| :: Tidy(ChunkOf(items, c)) && Traceable(ChunkOf(items, c))
  }

  /** The answer to the row's chunk does not confirm that its file is gone. */
  ghost predicate UnconfirmedAt(items: seq<Item>, replies: nat -> Remote, i: nat)
    requires i < |items|
  {
    Unconfirmed(ChunkOf(items, i / CHUNK), replies(i / CHUNK), FileOf(items[i]))
  }

  lemma PlaceInChunk(items: seq<Item>, i: nat)
    requires i < |items|
    ensures CHUNK * (i / CHUNK) <= i && i % CHUNK < |ChunkOf(items, i / CHUNK)|
    ensures ChunkOf(items, i / CHUNK)[i % CHUNK] == items[i]
  {
  }

  /** The job clears a row only if the answer to its chunk confirms the delete of its file;
      with files of their own, exactly then. */
  lemma ClearedIffConfirmed(items: seq<Item>, replies: nat -> Remote, n: nat, i: nat)
    requires i < n <= |items| && Separable(items) && forall c: nat :: Plausible(replies(c))
    ensures OutcomeAt(items, replies, i) == Deleted ==> !UnconfirmedAt(items, replies, i)
    ensures OwnFiles(ChunkOf(items, i / CHUNK)) && !UnconfirmedAt(items, replies, i) ==>
      OutcomeAt(items, replies, i) == Deleted && items[i] in Confirmed(items, replies, n)
  {
    hide OutcomeIn, Failures, Unconfirmed, FileOf, Tidy, ClearLabels, Traceable, OwnFiles, ChunkOf;
    var c := i / CHUNK;
    PlaceInChunk(items, i);
    var chunk := ChunkOf(items, c);
    if UnconfirmedAt(items, replies, i) {
      TraceableIsFailClosed(chunk, replies(c), i % CHUNK);
    } else if OwnFiles(chunk) {
      TraceableIffClear(chunk);
      DeletedIffConfirmed(chunk, replies(c), i % CHUNK);
      ConfirmedIff(items, replies, n, items[i]);
    }
  }

  /** Every row cleared by a job was at some place where its delete was confirmed. */
  lemma ClearedRowsWereConfirmed(items: seq<Item>, replies: nat -> Remote, n: nat, x: Item)
    requires n <= |items| && Separable(items) && forall c: nat :: Plausible(replies(c))
    requires x in Confirmed(items, replies, n)
    ensures exists i: nat :: i < n && items[i] == x && !UnconfirmedAt(items, replies, i)
  {
    hide OutcomeAt, Separable, UnconfirmedAt;
    ConfirmedIff(items, replies, n, x);
    var i: nat :| i < n && items[i] == x && OutcomeAt(items, replies, i) == Deleted;
    ClearedIffConfirmed(items, replies, n, i);
  }

  // ---- The unban job -------------------------------------------------------------------

  datatype UnbanResult = EnableFailed | NotRestored | Enabled | NotThere

  function CountOf(results: seq<UnbanResult>, wanted: set<UnbanResult>): (n: nat)
    ensures n <= |results|
  {
    if results == [] then 0
    else CountOf(results[..|results| - 1], wanted) + if results[|results| - 1] in wanted then 1 else 0
  }

  /** The worker over its targets; `results` are what enabling each account would give,
      `activeFor` how many are begun before a stop is noticed. */
  method RunUnban(job: UnbanJob, run: nat, results: seq<UnbanResult>, activeFor: nat)
    requires job.running && job.runId == run && job.total == |results|
    requires job.done == job.enabled == job.missing == job.failed == 0
    modifies job`done, job`enabled, job`missing, job`failed
    ensures var did := results[..Lesser(activeFor, |results|)];
      && job.done == |did| <= job.total
      && job.enabled == CountOf(did, {Enabled}) && job.missing == CountOf(did, {NotThere})
      && job.failed == CountOf(did, {EnableFailed, NotRestored})
  {
    var i := 0;
    while i < |results| && i < activeFor
      invariant i <= Lesser(activeFor, |results|)
      invariant job.done == i
      invariant job.enabled == CountOf(results[..i], {Enabled})
      invariant job.missing == CountOf(results[..i], {NotThere})
      invariant job.failed == CountOf(results[..i], {EnableFailed, NotRestored})
    {
      assert results[..i + 1][..i] == results[..i];
      var owns := job.OwnsRun(run);
      match results[i] {
        case EnableFailed =>
          if owns {
            job.failed := job.failed + 1;
            job.done := job.done + 1;
          }
        case NotRestored =>
          if owns {
            job.failed := job.failed + 1;
            job.done := job.done + 1;
          }
        case Enabled =>
          if owns {
            job.enabled := job.enabled + 1;
            job.done := job.done + 1;
          }
        case NotThere =>
          if owns {
            job.missing := job.missing + 1;
            job.done := job.done + 1;
          }
      }
      i := i + 1;
    }
  }

  /** Every account begun is counted once. */
  lemma {:induction false} UnbanCountsAddUp(results: seq<UnbanResult>)
    ensures |results| ==
      CountOf(results, {Enabled}) + CountOf(results, {NotThere}) + CountOf(results, {EnableFailed, NotRestored})
  {
    if results != [] {
      var init, last := results[..|results| - 1], results[|results| - 1];
      UnbanCountsAddUp(init);
      forall w: set<UnbanResult> ensures CountOf(results, w) == CountOf(init, w) + if last in w then 1 else 0 {
      }
      assert last == EnableFailed || last == NotRestored || last == Enabled || last == NotThere;
    }
  }
}
