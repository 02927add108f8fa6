/**
 * The records of the bulk card database and of the decklist, and the
 * construction of the name-keyed card database from the bulk list.
 */
module Types {
  import opened RustStd

  datatype CardLayout =
    | Normal | Transform | ArtSeries | Token | Class | Planar | Saga | Scheme
    | DoubleFacedToken | Meld | Prototype | Vanguard | Emblem | ModalDfc | Split
    | Adventure | Augment | Flip | Host | Mutate | Leveler | Case

  datatype BulkLanguage =
    | English | German | Japanese | French | Spanish | SimplifiedChinese
    | TraditionalChinese | Russian | Italian | Phyrexian | Portugese | Quenya
    | Sanskrit | AncientGreek | Hebrew | Korean

  /** The image links of a card; URLs are kept as their text. */
  datatype BulkImageUris = BulkImageUris(
    small: string,
    normal: string,
    large: string,
    png: string,
    artCrop: string,
    borderCrop: string)
  {
    /** `Display`: a card's images are shown as their PNG link. */
    function Display(): string
    {
      png
    }
  }

  datatype CardFaces = CardFaces(name: string, imageUris: Option<BulkImageUris>)

  /** One record of the bulk card list. */
  datatype BulkEntry = BulkEntry(
    id: string,
    oracleId: Option<string>,
    name: string,
    lang: BulkLanguage,
    uri: string,
    scryfallUri: string,
    layout: CardLayout,
    highresImage: bool,
    imageStatus: string,
    imageUris: Option<BulkImageUris>,
    cardFaces: Option<seq<CardFaces>>)

  /**
   * One card of the decklist. `url` and `data` are not read from the decklist:
   * resolution fills in `url`, the download fills in `data`.
   */
  datatype CardEntry = CardEntry(
    quantity: u32,
    backface: Option<bool>,
    name: string,
    url: Option<string>,
    data: Option<seq<Byte>>)

  /** The card database, keyed by card name. */
  datatype BulkDB = BulkDB(cards: map<string, BulkEntry>)

  // ---------------------------------------------------------------------------
  // Building the database

  /** The names that occur in `entries`. */
  function Names(entries: seq<BulkEntry>): set<string>
  {
    set e | e in entries :: e.name
  }

  /** `entries[i]` is the first entry with its name. */
  predicate IsFirstOfName(entries: seq<BulkEntry>, i: int)
  {
    0 <= i < |entries| && forall j :: 0 <= j < i ==> entries[j].name != entries[i].name
  }

  /** One step of the loop: an entry goes in only if its name is still vacant. */
  function InsertIfVacant(db: map<string, BulkEntry>, item: BulkEntry): (r: map<string, BulkEntry>)
    ensures r.Keys == db.Keys + {item.name}
    ensures forall name :: name in db ==> r[name] == db[name]
    ensures item.name !in db ==> r[item.name] == item
  {
    if item.name in db then db else db[item.name := item]
  }

  /** The map the loop builds from `entries`, one entry at a time in list order. */
  function BuildDB(entries: seq<BulkEntry>): (db: map<string, BulkEntry>)
    ensures forall name :: name in db ==> db[name].name == name
  {
    if entries == [] then map[]
    else InsertIfVacant(BuildDB(entries[..|entries| - 1]), entries[|entries| - 1])
  }

  /** The names the loop logs as duplicates, one per entry skipped, in list order. */
  function DuplicateNames(entries: seq<BulkEntry>): seq<string>
  {
    if entries == [] then []
    else
      var init, last := entries[..|entries| - 1], entries[|entries| - 1];
      DuplicateNames(init) + if last.name in Names(init) then [last.name] else []
  }

  /**
   * `BulkDB::try_from`: never fails; the first entry with each name is kept,
   * and a later entry with a name already present is only logged.
   */
  method TryFrom(value: seq<BulkEntry>) returns (r: Result<BulkDB, string>, logged: seq<string>)
    ensures r.Ok?
    ensures r.value.cards == BuildDB(value)
    ensures r.value.cards.Keys == Names(value)
    ensures forall i :: IsFirstOfName(value, i) ==> r.value.cards[value[i].name] == value[i]
    ensures forall name :: name in r.value.cards ==> r.value.cards[name].name == name
    ensures |r.value.cards| == |Names(value)| <= |value|
    ensures logged == DuplicateNames(value)
    ensures |logged| + |r.value.cards| == |value|
  {
    var db: map<string, BulkEntry> := map[];
    logged := [];
    for i := 0 to |value|
      invariant db == BuildDB(value[..i])
      invariant logged == DuplicateNames(value[..i])
    {
      var item := value[i];
      assert value[..i + 1][..i] == value[..i];
      BuildDBKeys(value[..i]);
      if item.name in db {
        logged := logged + [item.name];
      } else {
        db := db[item.name := item];
      }
    }
    assert value[..|value|] == value;
    BuildDBKeys(value);
    forall i | IsFirstOfName(value, i)
      ensures value[i].name in db && db[value[i].name] == value[i]
    {
      BuildDBKeepsFirst(value, i);
    }
    BuildDBSize(value);
    DuplicateCount(value);
    r := Ok(BulkDB(db));
  }

  // ---------------------------------------------------------------------------
  // Properties of the database

  /** The keys of the database are exactly the names in the list. */
  lemma {:induction false} BuildDBKeys(entries: seq<BulkEntry>)
    ensures BuildDB(entries).Keys == Names(entries)
  {
    if entries != [] {
      var init, last := entries[..|entries| - 1], entries[|entries| - 1];
      BuildDBKeys(init);
      assert entries == init + [last];
      assert Names(entries) == Names(init) + {last.name};
    }
  }

  /** For each name, the entry stored is the first entry in the list with that name. */
  lemma {:induction false} BuildDBKeepsFirst(entries: seq<BulkEntry>, i: int)
    requires IsFirstOfName(entries, i)
    ensures entries[i].name in BuildDB(entries)
    ensures BuildDB(entries)[entries[i].name] == entries[i]
  {
    var init, last := entries[..|entries| - 1], entries[|entries| - 1];
    var before := BuildDB(init);
    BuildDBKeys(init);
    if i < |init| {
      assert entries[i] == init[i];
      assert IsFirstOfName(init, i);
      BuildDBKeepsFirst(init, i);
    } else {
      assert forall j :: 0 <= j < |init| ==> init[j].name != last.name;
      assert last.name !in Names(init);
    }
  }

  /** The database holds one entry per distinct name, so no more than the list. */
  lemma {:induction false} BuildDBSize(entries: seq<BulkEntry>)
    ensures |BuildDB(entries)| == |Names(entries)| <= |entries|
  {
    BuildDBKeys(entries);
    if entries != [] {
      var init, last := entries[..|entries| - 1], entries[|entries| - 1];
      BuildDBSize(init);
      BuildDBKeys(init);
    }
  }

  /** Every entry is either stored or logged as a duplicate. */
  lemma {:induction false} DuplicateCount(entries: seq<BulkEntry>)
    ensures |DuplicateNames(entries)| + |BuildDB(entries)| == |entries|
  {
    if entries != [] {
      var init := entries[..|entries| - 1];
      DuplicateCount(init);
      BuildDBKeys(init);
    }
  }

  /** A later entry whose name is already present leaves the database unchanged. */
  lemma DuplicateLeavesDBUnchanged(entries: seq<BulkEntry>, later: BulkEntry)
    requires later.name in Names(entries)
    ensures BuildDB(entries + [later]) == BuildDB(entries)
    ensures DuplicateNames(entries + [later]) == DuplicateNames(entries) + [later.name]
  {
    assert (entries + [later])[..|entries|] == entries;
    BuildDBKeys(entries);
  }

  /** Of two entries with the same name, the first is kept and the second logged. */
  lemma FirstOfTwoDuplicatesKept(first: BulkEntry, second: BulkEntry)
    requires first.name == second.name
    ensures BuildDB([first, second]) == map[first.name := first]
    ensures DuplicateNames([first, second]) == [second.name]
  {
    assert [first, second][..1] == [first];
    assert [first][..0] == [];
    assert BuildDB([first]) == map[first.name := first];
    assert Names([first]) == {first.name};
    assert DuplicateNames([first]) == [];
  }

  /** The text shown for a card's images is its PNG link, whatever the other links are. */
  lemma DisplayShowsPngOnly(u: BulkImageUris, v: BulkImageUris)
    ensures u.Display() == v.Display() <==> u.png == v.png
    ensures u.Display() == u.png
  {
  }
}
