/** When a host auth entry and an inspection row describe the same account. */
module Identity {
  import Text

  /** A host auth entry; `modUnix` is 0 when the host gave no modification time. */
  datatype AuthFile = AuthFile(
    authIndex: string,
    name: string,
    id: string,
    email: string,
    labelText: string,
    size: int,
    modUnix: int,
    disabled: bool)

  datatype Verdict = Probed(classification: string) | TimedOut | Cancelled

  datatype Row = Row(
    authIndex: string,
    name: string,
    fileName: string,
    email: string,
    fileId: string,
    fileSize: int,
    fileModUnix: int,
    disabled: bool,
    verdict: Verdict)

  function DisplayName(f: AuthFile): string {
    Text.FirstNonEmpty([f.email, f.labelText, f.name, f.authIndex, f.id])
  }

  /** An entry is shown under its e-mail address, else its label, name, index or id. */
  lemma ShownAs(f: AuthFile)
    ensures DisplayName(f) ==
      if !Text.Blank(f.email) then Text.Trim(f.email)
      else if !Text.Blank(f.labelText) then Text.Trim(f.labelText)
      else if !Text.Blank(f.name) then Text.Trim(f.name)
      else if !Text.Blank(f.authIndex) then Text.Trim(f.authIndex)
      else Text.Trim(f.id)
  {
    hide Text.Trim, Text.FirstNonEmpty;
    var fields := [f.email, f.labelText, f.name, f.authIndex, f.id];
    var i := if !Text.Blank(f.email) then 0 else if !Text.Blank(f.labelText) then 1
      else if !Text.Blank(f.name) then 2 else if !Text.Blank(f.authIndex) then 3 else 4;
    assert forall j | 0 <= j < i :: Text.Blank(fields[j]);
    if !Text.Blank(fields[i]) {
      Text.FirstNonEmptyIs(fields, i);
    }
  }

  /** Probed, timed-out and cancelled rows all copy the entry's identity. */
  function RowOf(f: AuthFile, v: Verdict): Row {
    Row(f.authIndex, DisplayName(f), f.name, f.email, f.id, f.size, f.modUnix, f.disabled, v)
  }

  // ---- Stable keys ---------------------------------------------------------------

  /** The printed keys "ai:...", "id:..." and "fn:name|size|time" are pairwise different,
      and printing is injective, so they are kept as values. */
  datatype Key = ByIndex(string) | ById(string) | ByFile(string, int, int)

  function StableKeys(authIndex: string, fileId: string, fileName: string, size: int, modUnix: int): (keys: set<Key>)
    ensures keys == {} <==> Text.Blank(authIndex) && Text.Blank(fileId) && Text.Blank(fileName)
  {
    if !Text.Blank(authIndex) then {ByIndex(Text.Trim(authIndex))}
    else
      var byId: set<Key> := if !Text.Blank(fileId) then {ById(Text.Trim(fileId))} else {};
      var fn := Text.Lower(Text.Trim(fileName));
      var byFile: set<Key> := if fn != "" then {ByFile(fn, size, modUnix)} else {};
      byId + byFile
  }

  /** What the keys of an entry or a row are made of. */
  datatype Marks = Marks(authIndex: string, fileId: string, fileName: string, size: int, modUnix: int)

  function KeysOf(m: Marks): set<Key> {
    StableKeys(m.authIndex, m.fileId, m.fileName, m.size, m.modUnix)
  }

  predicate SameText(a: string, b: string) {
    !Text.Blank(a) && Text.Trim(a) == Text.Trim(b)
  }

  /** Two entries have a key in common exactly if they have the same index, or neither has an
      index and they have the same id, or the same file name in any case with size and time. */
  lemma ShareKeyIff(a: Marks, b: Marks)
    ensures KeysOf(a) * KeysOf(b) != {} <==>
      if !Text.Blank(a.authIndex) || !Text.Blank(b.authIndex) then SameText(a.authIndex, b.authIndex)
      else
        || SameText(a.fileId, b.fileId)
        || (!Text.Blank(a.fileName) && Text.Lower(Text.Trim(a.fileName)) == Text.Lower(Text.Trim(b.fileName)) &&
            a.size == b.size && a.modUnix == b.modUnix)
  {
    hide Text.Trim, Text.Lower;
    var x, y := KeysOf(a), KeysOf(b);
    if SameText(a.authIndex, b.authIndex) {
      assert ByIndex(Text.Trim(a.authIndex)) in x * y;
    } else if Text.Blank(a.authIndex) && Text.Blank(b.authIndex) {
      if SameText(a.fileId, b.fileId) {
        assert ById(Text.Trim(a.fileId)) in x * y;
      }
      var f, g := Text.Lower(Text.Trim(a.fileName)), Text.Lower(Text.Trim(b.fileName));
      if f == g != "" && a.size == b.size && a.modUnix == b.modUnix {
        assert ByFile(f, a.size, a.modUnix) in x * y;
      }
    }
    if x * y != {} {
      var k :| k in x && k in y;
    }
  }

  function FileKeys(f: AuthFile): set<Key> {
    StableKeys(f.authIndex, f.id, f.name, f.size, f.modUnix)
  }

  function RowKeys(r: Row): set<Key> {
    StableKeys(r.authIndex, r.fileId, r.fileName, r.fileSize, r.fileModUnix)
  }

  /** Every row a run writes reproduces its entry's keys. */
  lemma RowsKeepKeys(f: AuthFile, v: Verdict)
    ensures RowKeys(RowOf(f, v)) == FileKeys(f)
  {
  }

  /** The keys of all rows. */
  function KnownKeys(rows: seq<Row>): set<Key> {
    if rows == [] then {} else KnownKeys(rows[..|rows| - 1]) + RowKeys(rows[|rows| - 1])
  }

  lemma {:induction false} KeyIsKnownIff(rows: seq<Row>, k: Key)
    ensures k in KnownKeys(rows) <==> exists i :: 0 <= i < |rows| && k in RowKeys(rows[i])
  {
    hide RowKeys;
    if rows != [] {
      var n := |rows| - 1;
      KeyIsKnownIff(rows[..n], k);
      if i :| 0 <= i < |rows| && k in RowKeys(rows[i]) {
        if i < n {
          assert k in RowKeys(rows[..n][i]);
        }
      }
      if i :| 0 <= i < n && k in RowKeys(rows[..n][i]) {
        assert k in RowKeys(rows[i]);
      }
    }
  }

  predicate IsKnown(known: set<Key>, f: AuthFile) {
    exists k :: k in FileKeys(f) && k in known
  }

  // ---- Matching rows ---------------------------------------------------------------

  predicate SameIdentity(a: Row, b: Row) {
    || (!Text.Blank(a.authIndex) && Text.Trim(a.authIndex) == Text.Trim(b.authIndex))
    || (!Text.Blank(a.fileName) && Text.Lower(Text.Trim(a.fileName)) == Text.Lower(Text.Trim(b.fileName)))
  }

  /** The first row with the identity of `want`, or the number of rows. */
  function FirstMatch(rows: seq<Row>, want: Row): (i: nat)
    ensures i <= |rows|
    ensures i < |rows| ==> SameIdentity(rows[i], want)
    ensures forall j | 0 <= j < i :: !SameIdentity(rows[j], want)
  {
    hide SameIdentity;
    if rows == [] then 0
    else if SameIdentity(rows[0], want) then 0
    else
      var i := FirstMatch(rows[1..], want);
      assert forall j | 1 <= j <= i :: rows[j] == rows[1..][j - 1];
      i + 1
  }

  lemma FirstMatchIs(rows: seq<Row>, want: Row, i: nat)
    requires i <= |rows|
    requires i < |rows| ==> SameIdentity(rows[i], want)
    requires forall j | 0 <= j < i :: !SameIdentity(rows[j], want)
    ensures FirstMatch(rows, want) == i
  {
  }

  method FindResultIndex(rows: seq<Row>, want: Row) returns (i: int)
    ensures -1 <= i < |rows|
    ensures i == if FirstMatch(rows, want) < |rows| then FirstMatch(rows, want) else -1
  {
    i := 0;
    while i < |rows|
      invariant 0 <= i <= |rows|
      invariant forall j | 0 <= j < i :: !SameIdentity(rows[j], want)
    {
      if SameIdentity(rows[i], want) {
        FirstMatchIs(rows, want, i);
        return;
      }
      i := i + 1;
    }
    FirstMatchIs(rows, want, i);
    i := -1;
  }

  /** The loose match for an entry without any stable key. */
  predicate LooseMatch(r: Row, f: AuthFile) {
    || (r.authIndex != "" && r.authIndex == f.authIndex)
    || (DisplayName(f) != "" && (r.name == DisplayName(f) || r.email == DisplayName(f) || r.fileName == f.name))
  }

  predicate Describes(r: Row, f: AuthFile) {
    if FileKeys(f) == {} then LooseMatch(r, f) else exists k :: k in RowKeys(r) && k in FileKeys(f)
  }

  /** A row keeps what identifies its entry, and whether it is disabled. */
  lemma RowShowsEntry(f: AuthFile, v: Verdict)
    ensures var r := RowOf(f, v);
      && r.authIndex == f.authIndex && r.fileName == f.name && r.fileId == f.id && r.email == f.email
      && r.name == DisplayName(f) && r.disabled == f.disabled && r.verdict == v
      && r.fileSize == f.size && r.fileModUnix == f.modUnix
  {
  }

  function MarksOf(f: AuthFile): Marks {
    Marks(f.authIndex, f.id, f.name, f.size, f.modUnix)
  }

  /** The row written for one entry describes another exactly if they have a key in common,
      or, for an entry without keys, if they have the index text, the display name or the
      file name in common, or the one's e-mail address is the other's display name. */
  lemma DescribesIff(g: AuthFile, v: Verdict, f: AuthFile)
    ensures Describes(RowOf(g, v), f) <==>
      if Text.Blank(f.authIndex) && Text.Blank(f.id) && Text.Blank(f.name) then
        || (g.authIndex != "" && g.authIndex == f.authIndex)
        || (DisplayName(f) != "" && (DisplayName(f) in {DisplayName(g), g.email} || f.name == g.name))
      else KeysOf(MarksOf(g)) * KeysOf(MarksOf(f)) != {}
  {
    hide DisplayName, Text.Blank, StableKeys;
    var x, y := RowKeys(RowOf(g, v)), FileKeys(f);
    assert x == KeysOf(MarksOf(g)) && y == KeysOf(MarksOf(f));
    if k :| k in x && k in y {
      assert k in x * y;
    }
  }

  ghost predicate Contains(rows: seq<Row>, f: AuthFile) {
    exists i :: 0 <= i < |rows| && Describes(rows[i], f)
  }

  method ResultContainsAuthFile(rows: seq<Row>, f: AuthFile) returns (found: bool)
    ensures found <==> Contains(rows, f)
  {
    for i := 0 to |rows|
      invariant forall j | 0 <= j < i :: !Describes(rows[j], f)
    {
      if Describes(rows[i], f) {
        return true;
      }
    }
    found := false;
  }

  // ---- Selecting new entries ----------------------------------------------------------

  /** The listed entries to inspect that no row accounts for. */
  function FilterNew(files: seq<AuthFile>, known: set<Key>, wanted: AuthFile -> bool): (r: seq<AuthFile>)
    ensures forall f :: f in r <==> f in files && wanted(f) && !IsKnown(known, f)
    ensures |r| <= |files|
  {
    if files == [] then []
    else
      var n := |files| - 1;
      var init := FilterNew(files[..n], known, wanted);
      if wanted(files[n]) && !IsKnown(known, files[n]) then init + [files[n]] else init
  }
}
