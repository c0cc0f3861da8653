/** The SQLite store (backend/services/sqlite_db.py): the four tables'
    schemas with their column defaults, and `init_db`, which creates the
    tables that are absent, inserts the default settings whose keys are
    absent and adds the listed pets columns that are absent. The rows of
    every table live in one `Database` object; the routes of module
    Backend update it. */
module SqliteDb {

  /** A value stored in a column. */
  datatype SqlValue = Null | Text(s: string) | Integer(i: int)

  /** A row as `dict(row)` sees it: column name to value. */
  type Row = map<string, SqlValue>

  datatype ColumnDefault = NoDefault | Literal(v: SqlValue) | CurrentTimestamp

  /** A column: its name, its declared type with constraints, its DEFAULT. */
  datatype Column = Column(name: string, sqlType: string, default: ColumnDefault)

  const PetsColumns: seq<Column> := [
    Column("id", "TEXT PRIMARY KEY", NoDefault),
    Column("name", "TEXT NOT NULL", NoDefault),
    Column("species", "TEXT", NoDefault),
    Column("breed", "TEXT", NoDefault),
    Column("sex", "TEXT", NoDefault),
    Column("color", "TEXT", NoDefault),
    Column("age", "TEXT", NoDefault),
    Column("weight", "TEXT", NoDefault),
    Column("owner_name", "TEXT NOT NULL", NoDefault),
    Column("owner_phone", "TEXT NOT NULL", NoDefault),
    Column("status", "TEXT", Literal(Text("Healthy"))),
    Column("birthday", "TEXT", NoDefault),
    Column("last_vaccination_date", "TEXT", NoDefault),
    Column("next_vaccination_date", "TEXT", NoDefault),
    Column("last_deworming_date", "TEXT", NoDefault),
    Column("last_checkup_date", "TEXT", NoDefault),
    Column("medical_history", "TEXT", Literal(Text("[]"))),
    Column("created_at", "DATETIME", CurrentTimestamp)
  ]

  const CampaignsColumns: seq<Column> := [
    Column("id", "TEXT PRIMARY KEY", NoDefault),
    Column("name", "TEXT NOT NULL", NoDefault),
    Column("message", "TEXT NOT NULL", NoDefault),
    Column("target_audience", "TEXT", NoDefault),
    Column("status", "TEXT", Literal(Text("draft"))),
    Column("sent_count", "INTEGER", Literal(Integer(0))),
    Column("created_at", "DATETIME", CurrentTimestamp)
  ]

  const DraftsColumns: seq<Column> := [
    Column("id", "TEXT PRIMARY KEY", NoDefault),
    Column("pet_id", "TEXT REFERENCES pets (id)", NoDefault),
    Column("type", "TEXT", NoDefault),
    Column("draft_message", "TEXT", NoDefault),
    Column("status", "TEXT", Literal(Text("pending_review"))),
    Column("created_at", "DATETIME", CurrentTimestamp)
  ]

  const SettingsColumns: seq<Column> := [
    Column("key", "TEXT PRIMARY KEY", NoDefault),
    Column("value", "TEXT", NoDefault)
  ]

  /** The settings `init_db` inserts when their key is absent, in order. */
  const DefaultSettings: seq<(string, string)> := [
    ("clinic_name", "Kizuna Vet Center"),
    ("booking_url", "https://book.vet/kizuna"),
    ("kapso_api_key", ""),
    ("kapso_phone_id", ""),
    ("telegram_token", ""),
    ("ai_tone", "friendly")
  ]

  /** The pets columns the migration adds when they are absent, in order. */
  const MigrationColumns: seq<Column> := [
    Column("sex", "TEXT", NoDefault),
    Column("color", "TEXT", NoDefault),
    Column("age", "TEXT", NoDefault),
    Column("weight", "TEXT", NoDefault),
    Column("last_deworming_date", "TEXT", NoDefault),
    Column("last_checkup_date", "TEXT", NoDefault),
    Column("medical_history", "TEXT", Literal(Text("[]")))
  ]

  /** A row of the campaigns table. */
  datatype Campaign = Campaign(id: string, name: string, message: string,
                               targetAudience: string, status: string, sentCount: int)

  /** A row of the drafts table. */
  datatype Draft = Draft(id: string, petId: string, kind: string,
                         message: string, status: string)

  function ColumnNames(cols: seq<Column>): (names: seq<string>)
    ensures |names| == |cols|
    ensures forall i :: 0 <= i < |cols| ==> names[i] == cols[i].name
  {
    seq(|cols|, i requires 0 <= i < |cols| => cols[i].name)
  }

  /** The DEFAULT of the first column from index `i` on called `name`;
      NoDefault when there is none. */
  function DefaultFrom(cols: seq<Column>, name: string, i: nat): (d: ColumnDefault)
    decreases |cols| - i
  {
    if i >= |cols| then NoDefault
    else if cols[i].name == name then cols[i].default
    else DefaultFrom(cols, name, i + 1)
  }

  /** A DEFAULT found by the search is that of a column with that name. */
  lemma {:induction false} DefaultFromColumn(cols: seq<Column>, name: string, i: nat)
    ensures var d := DefaultFrom(cols, name, i);
            d != NoDefault ==> exists k :: i <= k < |cols| && cols[k].name == name && cols[k].default == d
    decreases |cols| - i
  {
    if i < |cols| && cols[i].name != name {
      DefaultFromColumn(cols, name, i + 1);
    }
  }

  /** The search stops at the first column with that name. */
  lemma {:induction false} DefaultFromFirst(cols: seq<Column>, name: string, i: nat, k: nat)
    requires i <= k < |cols| && cols[k].name == name
    requires forall j :: i <= j < k ==> cols[j].name != name
    ensures DefaultFrom(cols, name, i) == cols[k].default
    decreases k - i
  {
    if i < k {
      DefaultFromFirst(cols, name, i + 1, k);
    }
  }

  /** The DEFAULT of the first column with that name, as `PRAGMA
      table_info` lists the columns; no such column, no default. */
  function DefaultOf(cols: seq<Column>, name: string): (d: ColumnDefault)
    ensures d != NoDefault ==> exists k :: 0 <= k < |cols| && cols[k].name == name && cols[k].default == d
    ensures forall k ::
              0 <= k < |cols| && cols[k].name == name && (forall j :: 0 <= j < k ==> cols[j].name != name)
              ==> d == cols[k].default
    ensures name !in ColumnNames(cols) ==> d == NoDefault
  {
    DefaultFromColumn(cols, name, 0);
    forall k | 0 <= k < |cols| && cols[k].name == name && (forall j :: 0 <= j < k ==> cols[j].name != name)
      ensures DefaultFrom(cols, name, 0) == cols[k].default
    {
      DefaultFromFirst(cols, name, 0, k);
    }
    DefaultFrom(cols, name, 0)
  }

  /** The schema defaults the routes rely on: a pet is 'Healthy', a
      campaign is a 'draft' with `sent_count` 0 and a draft is
      'pending_review' unless the INSERT says otherwise. */
  lemma SchemaDefaults()
    ensures DefaultOf(PetsColumns, "status") == Literal(Text("Healthy"))
    ensures DefaultOf(CampaignsColumns, "status") == Literal(Text("draft"))
    ensures DefaultOf(CampaignsColumns, "sent_count") == Literal(Integer(0))
    ensures DefaultOf(DraftsColumns, "status") == Literal(Text("pending_review"))
  {
    PetStatusDefault();
    CampaignDefaults();
    DraftStatusDefault();
  }

  /** The search passes the ten columns before "status" one at a time. */
  lemma PetStatusDefault()
    ensures DefaultOf(PetsColumns, "status") == Literal(Text("Healthy"))
  {
  }

  lemma CampaignDefaults()
    ensures DefaultOf(CampaignsColumns, "status") == Literal(Text("draft"))
    ensures DefaultOf(CampaignsColumns, "sent_count") == Literal(Integer(0))
  {
  }

  lemma DraftStatusDefault()
    ensures DefaultOf(DraftsColumns, "status") == Literal(Text("pending_review"))
  {
  }

  // ---- CREATE TABLE IF NOT EXISTS -------------------------------------

  function CreateIfAbsent(tables: map<string, seq<Column>>, name: string, cols: seq<Column>)
    : map<string, seq<Column>>
  {
    if name in tables then tables else tables[name := cols]
  }

  /** CREATE TABLE IF NOT EXISTS adds the one name and alters no existing
      table. */
  lemma CreateIfAbsentKeeps(tables: map<string, seq<Column>>, name: string, cols: seq<Column>)
    ensures var r := CreateIfAbsent(tables, name, cols);
            && r.Keys == tables.Keys + {name}
            && (forall n :: n in tables ==> r[n] == tables[n])
  {
  }

  /** The four CREATE TABLE IF NOT EXISTS statements, in order. */
  function CreatedTables(tables: map<string, seq<Column>>): (r: map<string, seq<Column>>)
    ensures "pets" in r && "campaigns" in r && "drafts" in r && "settings" in r
    ensures r.Keys == tables.Keys + {"pets", "campaigns", "drafts", "settings"}
    ensures forall name :: name in tables ==> r[name] == tables[name]
  {
    var t1 := CreateIfAbsent(tables, "pets", PetsColumns);
    var t2 := CreateIfAbsent(t1, "campaigns", CampaignsColumns);
    var t3 := CreateIfAbsent(t2, "drafts", DraftsColumns);
    CreateIfAbsentKeeps(tables, "pets", PetsColumns);
    CreateIfAbsentKeeps(t1, "campaigns", CampaignsColumns);
    CreateIfAbsentKeeps(t2, "drafts", DraftsColumns);
    CreateIfAbsentKeeps(t3, "settings", SettingsColumns);
    CreateIfAbsent(t3, "settings", SettingsColumns)
  }

  /** Once the four tables exist, the CREATE statements change nothing. */
  lemma CreatedTablesNoop(tables: map<string, seq<Column>>)
    requires "pets" in tables && "campaigns" in tables && "drafts" in tables && "settings" in tables
    ensures CreatedTables(tables) == tables
  {
  }

  // ---- INSERT OR IGNORE of the default settings -----------------------

  /** The keys of the pairs of `ds` from index `i` on. */
  function KeysFrom(ds: seq<(string, string)>, i: nat): set<string>
    decreases |ds| - i
  {
    if i >= |ds| then {} else {ds[i].0} + KeysFrom(ds, i + 1)
  }

  /** The value of the first pair from index `i` on with key `k`. */
  function FirstValue(ds: seq<(string, string)>, k: string, i: nat): string
    requires k in KeysFrom(ds, i)
    decreases |ds| - i
  {
    if ds[i].0 == k then ds[i].1 else FirstValue(ds, k, i + 1)
  }

  /** `INSERT OR IGNORE` of each pair of `ds` from index `i` on, in order. */
  function InsertFrom(s: map<string, string>, ds: seq<(string, string)>, i: nat)
    : map<string, string>
    decreases |ds| - i
  {
    if i >= |ds| then s
    else
      var (k, v) := ds[i];
      InsertFrom(if k in s then s else s[k := v], ds, i + 1)
  }

  /** An existing value is never overwritten, and of two pairs with the
      same key the first one wins. */
  lemma {:induction false} InsertFromSpec(s: map<string, string>, ds: seq<(string, string)>, i: nat)
    ensures var r := InsertFrom(s, ds, i);
            && r.Keys == s.Keys + KeysFrom(ds, i)
            && (forall k :: k in s ==> r[k] == s[k])
            && (forall k :: k !in s && k in KeysFrom(ds, i) ==> r[k] == FirstValue(ds, k, i))
    decreases |ds| - i
  {
    if i < |ds| {
      var (k, v) := ds[i];
      InsertFromSpec(if k in s then s else s[k := v], ds, i + 1);
    }
  }

  function WithDefaults(s: map<string, string>, ds: seq<(string, string)>): (r: map<string, string>)
    ensures r.Keys == s.Keys + KeysFrom(ds, 0)
    ensures forall k :: k in s ==> r[k] == s[k]
    ensures forall k :: k !in s && k in KeysFrom(ds, 0) ==> r[k] == FirstValue(ds, k, 0)
  {
    InsertFromSpec(s, ds, 0);
    InsertFrom(s, ds, 0)
  }

  /** Once every key of `ds` is present, inserting the defaults again
      changes nothing. */
  lemma {:induction false} InsertPresent(s: map<string, string>, ds: seq<(string, string)>, i: nat)
    requires KeysFrom(ds, i) <= s.Keys
    ensures InsertFrom(s, ds, i) == s
    decreases |ds| - i
  {
    if i < |ds| {
      InsertPresent(s, ds, i + 1);
    }
  }

  lemma WithDefaultsIdempotent(s: map<string, string>, ds: seq<(string, string)>)
    ensures WithDefaults(WithDefaults(s, ds), ds) == WithDefaults(s, ds)
  {
    InsertPresent(WithDefaults(s, ds), ds, 0);
  }

  const DefaultKeys := {"clinic_name", "booking_url", "kapso_api_key",
                        "kapso_phone_id", "telegram_token", "ai_tone"}

  /** After `init_db` the six default keys exist, whatever was there, and
      no other key is added. */
  lemma DefaultKeysPresent(s: map<string, string>)
    ensures WithDefaults(s, DefaultSettings).Keys == s.Keys + DefaultKeys
  {
    assert KeysFrom(DefaultSettings, 0) == DefaultKeys;
  }

  /** In a new database the settings are exactly the defaults. */
  lemma FreshSettings()
    ensures var r := WithDefaults(map[], DefaultSettings);
            && r.Keys == DefaultKeys
            && r["clinic_name"] == "Kizuna Vet Center"
            && r["booking_url"] == "https://book.vet/kizuna"
            && r["kapso_api_key"] == "" && r["kapso_phone_id"] == ""
            && r["telegram_token"] == "" && r["ai_tone"] == "friendly"
  {
    assert KeysFrom(DefaultSettings, 0) == DefaultKeys;
  }

  // ---- ALTER TABLE pets ADD COLUMN ------------------------------------

  /** The columns of `wanted` from index `i` on whose name is not in
      `present`, in order. */
  function MissingFrom(present: seq<string>, wanted: seq<Column>, i: nat): seq<Column>
    decreases |wanted| - i
  {
    if i >= |wanted| then []
    else (if wanted[i].name in present then [] else [wanted[i]]) + MissingFrom(present, wanted, i + 1)
  }

  lemma {:induction false} MissingFromMembers(present: seq<string>, wanted: seq<Column>, i: nat)
    ensures forall c :: c in MissingFrom(present, wanted, i) <==>
                        exists k :: i <= k < |wanted| && wanted[k] == c && c.name !in present
    decreases |wanted| - i
  {
    if i < |wanted| {
      MissingFromMembers(present, wanted, i + 1);
    }
  }

  function MissingColumns(present: seq<string>, wanted: seq<Column>): seq<Column> {
    MissingFrom(present, wanted, 0)
  }

  /** A column is added exactly when it is listed and its name is absent. */
  lemma MissingColumnsMembers(present: seq<string>, wanted: seq<Column>)
    ensures forall c :: c in MissingColumns(present, wanted) <==> c in wanted && c.name !in present
  {
    MissingFromMembers(present, wanted, 0);
    assert forall c :: c in wanted <==> exists k :: 0 <= k < |wanted| && wanted[k] == c;
  }

  lemma {:induction false} NothingMissingFrom(present: seq<string>, wanted: seq<Column>, i: nat)
    requires forall k :: 0 <= k < |wanted| ==> wanted[k].name in present
    ensures MissingFrom(present, wanted, i) == []
    decreases |wanted| - i
  {
    if i < |wanted| {
      NothingMissingFrom(present, wanted, i + 1);
    }
  }

  /** Once every wanted name is present nothing is missing. */
  lemma NothingMissing(present: seq<string>, wanted: seq<Column>)
    requires forall c :: c in wanted ==> c.name in present
    ensures MissingColumns(present, wanted) == []
  {
    NothingMissingFrom(present, wanted, 0);
  }

  /** The value ALTER TABLE ADD COLUMN gives the existing rows. */
  function AddedValue(d: ColumnDefault): SqlValue {
    match d
    case Literal(v) => v
    case _ => Null
  }

  function AddColumnToRows(rows: seq<Row>, c: Column): seq<Row> {
    seq(|rows|, i requires 0 <= i < |rows| => rows[i][c.name := AddedValue(c.default)])
  }

  /** The rows after adding each column of `cols`, in order. */
  function AddColumnsToRows(rows: seq<Row>, cols: seq<Column>): (r: seq<Row>)
    ensures |r| == |rows|
    decreases |cols|
  {
    if cols == [] then rows
    else AddColumnsToRows(AddColumnToRows(rows, cols[0]), cols[1..])
  }

  /** `cols` after one ALTER TABLE ADD COLUMN for each column of `wanted`
      whose name `cols` lacks. */
  function Migrated(cols: seq<Column>, wanted: seq<Column>): seq<Column> {
    cols + MissingColumns(ColumnNames(cols), wanted)
  }

  /** The rows of a table with columns `cols` after that migration. */
  function MigratedRows(cols: seq<Column>, rows: seq<Row>, wanted: seq<Column>): seq<Row> {
    AddColumnsToRows(rows, MissingColumns(ColumnNames(cols), wanted))
  }

  /** Adding the columns `[c] + rest` is adding `c`, then `rest`. */
  lemma AddColumnsCons(rows: seq<Row>, c: Column, rest: seq<Column>)
    ensures AddColumnsToRows(rows, [c] + rest) == AddColumnsToRows(AddColumnToRows(rows, c), rest)
  {
    assert ([c] + rest)[1..] == rest;
  }

  /** The pets columns after the migration. */
  function MigratedColumns(cols: seq<Column>): seq<Column> {
    Migrated(cols, MigrationColumns)
  }

  /** The migration keeps the present columns as they are, and afterwards
      every wanted column is present. */
  lemma MigratedComplete(cols: seq<Column>, wanted: seq<Column>)
    ensures cols <= Migrated(cols, wanted)
    ensures forall c :: c in wanted ==> c.name in ColumnNames(Migrated(cols, wanted))
  {
    var m := Migrated(cols, wanted);
    var missing := MissingColumns(ColumnNames(cols), wanted);
    MissingColumnsMembers(ColumnNames(cols), wanted);
    forall c | c in wanted ensures c.name in ColumnNames(m) {
      if c.name !in ColumnNames(cols) {
        assert c in missing;
        var k :| 0 <= k < |missing| && missing[k] == c;
        assert ColumnNames(m)[|cols| + k] == c.name;
      } else {
        var k :| 0 <= k < |cols| && ColumnNames(cols)[k] == c.name;
        assert ColumnNames(m)[k] == c.name;
      }
    }
  }

  /** After `init_db` the pets table has every listed migration column. */
  lemma MigrationComplete(cols: seq<Column>)
    ensures cols <= MigratedColumns(cols)
    ensures forall c :: c in MigrationColumns ==> c.name in ColumnNames(MigratedColumns(cols))
  {
    MigratedComplete(cols, MigrationColumns);
  }

  /** A second migration adds nothing. */
  lemma MigratedIdempotent(cols: seq<Column>, wanted: seq<Column>)
    ensures MissingColumns(ColumnNames(Migrated(cols, wanted)), wanted) == []
    ensures Migrated(Migrated(cols, wanted), wanted) == Migrated(cols, wanted)
  {
    MigratedComplete(cols, wanted);
    NothingMissing(ColumnNames(Migrated(cols, wanted)), wanted);
  }

  // ---- init_db as a whole ---------------------------------------------

  /** The schema after `init_db`. */
  function InitializedTables(tables: map<string, seq<Column>>): map<string, seq<Column>> {
    var t := CreatedTables(tables);
    t["pets" := MigratedColumns(t["pets"])]
  }

  /** The pets rows after `init_db`: each added column filled with its
      default. */
  function InitializedRows(tables: map<string, seq<Column>>, rows: seq<Row>): seq<Row> {
    var pets := CreatedTables(tables)["pets"];
    MigratedRows(pets, rows, MigrationColumns)
  }

  /** Running `init_db` twice leaves the same schema, settings and rows as
      running it once. */
  lemma InitDbIdempotent(tables: map<string, seq<Column>>, settings: map<string, string>,
                         rows: seq<Row>)
    ensures InitializedTables(InitializedTables(tables)) == InitializedTables(tables)
    ensures WithDefaults(WithDefaults(settings, DefaultSettings), DefaultSettings)
            == WithDefaults(settings, DefaultSettings)
    ensures InitializedRows(InitializedTables(tables), InitializedRows(tables, rows))
            == InitializedRows(tables, rows)
  {
    InitTablesIdempotent(tables);
    WithDefaultsIdempotent(settings, DefaultSettings);
  }

  lemma InitTablesIdempotent(tables: map<string, seq<Column>>)
    ensures InitializedTables(InitializedTables(tables)) == InitializedTables(tables)
    ensures MissingColumns(ColumnNames(CreatedTables(InitializedTables(tables))["pets"]), MigrationColumns) == []
  {
    var t := InitializedTables(tables);
    var pets := CreatedTables(tables)["pets"];
    CreatedTablesNoop(t);
    assert t["pets"] == MigratedColumns(pets);
    MigratedIdempotent(pets, MigrationColumns);
  }

  /** An existing table other than pets is never altered by `init_db`. */
  lemma InitDbKeepsTables(tables: map<string, seq<Column>>, name: string)
    requires name in tables && name != "pets"
    ensures InitializedTables(tables)[name] == tables[name]
  {
  }

  /** One ALTER TABLE step of the migration: adding the j-th wanted column
      when it is absent consumes the head of what is still missing. */
  lemma MigrateStep(t: seq<Column>, rows: seq<Row>, columns: seq<string>, wanted: seq<Column>, j: nat)
    requires j < |wanted|
    ensures var c := wanted[j];
            if c.name !in columns then
              && t + MissingFrom(columns, wanted, j) == (t + [c]) + MissingFrom(columns, wanted, j + 1)
              && AddColumnsToRows(rows, MissingFrom(columns, wanted, j))
                 == AddColumnsToRows(AddColumnToRows(rows, c), MissingFrom(columns, wanted, j + 1))
            else MissingFrom(columns, wanted, j) == MissingFrom(columns, wanted, j + 1)
  {
    var c := wanted[j];
    var rest := MissingFrom(columns, wanted, j + 1);
    if c.name !in columns {
      assert MissingFrom(columns, wanted, j) == [c] + rest;
      AddColumnsCons(rows, c, rest);
    }
  }

  /** The whole database: the schema and the rows of the four tables. */
  class Database {
    var tables: map<string, seq<Column>>
    var settings: map<string, string>
    var pets: seq<Row>
    var campaigns: seq<Campaign>
    var drafts: seq<Draft>

    /** The database file as found on disk. */
    constructor Open(tables: map<string, seq<Column>>, settings: map<string, string>,
                     pets: seq<Row>, campaigns: seq<Campaign>, drafts: seq<Draft>)
      ensures this.tables == tables && this.settings == settings && this.pets == pets
      ensures this.campaigns == campaigns && this.drafts == drafts
    {
      this.tables, this.settings, this.pets := tables, settings, pets;
      this.campaigns, this.drafts := campaigns, drafts;
    }

    method CreateTableIfNotExists(name: string, cols: seq<Column>)
      modifies this`tables
      ensures tables == CreateIfAbsent(old(tables), name, cols)
    {
      if name !in tables {
        tables := tables[name := cols];
      }
    }

    /** One INSERT OR IGNORE statement per pair of `ds`, in order. */
    method InsertOrIgnoreAll(ds: seq<(string, string)>)
      modifies this`settings
      ensures settings == WithDefaults(old(settings), ds)
    {
      var i := 0;
      while i < |ds|
        invariant 0 <= i <= |ds|
        invariant InsertFrom(settings, ds, i) == WithDefaults(old(settings), ds)
      {
        var (key, value) := ds[i];
        if key !in settings {
          settings := settings[key := value];
        }
        i := i + 1;
      }
    }

    /** The four CREATE TABLE IF NOT EXISTS statements of `init_db`. */
    method CreateTables()
      modifies this`tables
      ensures tables == CreatedTables(old(tables))
    {
      CreateTableIfNotExists("pets", PetsColumns);
      CreateTableIfNotExists("campaigns", CampaignsColumns);
      CreateTableIfNotExists("drafts", DraftsColumns);
      CreateTableIfNotExists("settings", SettingsColumns);
    }

    /** PRAGMA table_info(pets), then one ALTER TABLE pets ADD COLUMN for
        each column of `wanted` absent from that snapshot. */
    method AddMissingColumns(wanted: seq<Column>)
      requires "pets" in tables
      modifies this`tables, this`pets
      ensures tables == old(tables)["pets" := Migrated(old(tables)["pets"], wanted)]
      ensures pets == MigratedRows(old(tables)["pets"], old(pets), wanted)
    {
      var existing := tables["pets"];
      var columns := ColumnNames(existing);
      ghost var goal := Migrated(existing, wanted);
      ghost var goalRows := AddColumnsToRows(pets, MissingColumns(columns, wanted));
      var j := 0;
      while j < |wanted|
        invariant 0 <= j <= |wanted|
        invariant "pets" in tables
        invariant tables == old(tables)["pets" := tables["pets"]]
        invariant tables["pets"] + MissingFrom(columns, wanted, j) == goal
        invariant AddColumnsToRows(pets, MissingFrom(columns, wanted, j)) == goalRows
      {
        MigrateStep(tables["pets"], pets, columns, wanted, j);
        if wanted[j].name !in columns {
          tables := tables["pets" := tables["pets"] + [wanted[j]]];
          pets := AddColumnToRows(pets, wanted[j]);
        }
        j := j + 1;
      }
      assert MissingFrom(columns, wanted, j) == [];
      assert tables["pets"] + [] == tables["pets"];
    }

    /** The statements of `init_db()`, with `defaults` for the default
        settings and `wanted` for the pets columns the migration adds. */
    method InitDbWith(defaults: seq<(string, string)>, wanted: seq<Column>)
      modifies this`tables, this`settings, this`pets
      ensures var created := CreatedTables(old(tables));
              tables == created["pets" := Migrated(created["pets"], wanted)]
      ensures settings == WithDefaults(old(settings), defaults)
      ensures pets == MigratedRows(CreatedTables(old(tables))["pets"], old(pets), wanted)
    {
      CreateTables();
      InsertOrIgnoreAll(defaults);
      AddMissingColumns(wanted);
    }

    /** `init_db()`. */
    method InitDb()
      modifies this`tables, this`settings, this`pets
      ensures tables == InitializedTables(old(tables))
      ensures settings == WithDefaults(old(settings), DefaultSettings)
      ensures pets == InitializedRows(old(tables), old(pets))
    {
      InitDbWith(DefaultSettings, MigrationColumns);
    }
  }
}
