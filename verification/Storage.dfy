/** The ordered store of Thing Descriptions and its listings. */
module Storage {
  import opened Json
  import opened LevelDb
  import opened JsonText

  type Store = map<string, Members>

  const MAX_PER_PAGE: nat := 100

  // ---------- specification on values ----------

  /** The stored TDs in key order. */
  function Contents(db: Store): (tds: seq<Members>)
    ensures |tds| == |db|
  {
    var keys := SortedKeys(db.Keys);
    assert |db.Keys| == |db|;
    seq(|keys|, i requires 0 <= i < |keys| => assert keys[i] in keys; db[keys[i]])
  }

  /** All stored TDs, each once, in the order of their keys. */
  ghost predicate Lists(db: Store, keys: seq<string>, tds: seq<Members>) {
    InOrder(keys, db.Keys) && |tds| == |keys| && forall i | 0 <= i < |keys| :: keys[i] in db && tds[i] == db[keys[i]]
  }

  lemma ContentsAreListed(db: Store)
    ensures Lists(db, SortedKeys(db.Keys), Contents(db))
  {
    SortedInOrder(db.Keys);
    assert |db.Keys| == |db|;
  }

  function Objects(tds: seq<Members>): (values: seq<Json>)
    ensures |values| == |tds| && forall i | 0 <= i < |tds| :: values[i] == Obj(tds[i])
  {
    seq(|tds|, i requires 0 <= i < |tds| => Obj(tds[i]))
  }

  /** The bytes stored for each TD, in key order. */
  function Texts(number: NumberText, db: Store): seq<string> {
    PrintAll(number, Objects(Contents(db)))
  }

  datatype Window = Window(offset: nat, limit: nat)

  /** GetPagingAttr: the part of a list that makes a page, or none if the parameters are invalid. */
  function PagingAttr(total: nat, page: int, perPage: int): Option<Window> {
    if page < 1 || perPage < 1 || perPage > MAX_PER_PAGE then None
    else if page == 1 then Some(Window(0, if perPage > total then total else perPage))
    else if page == total / perPage + 1 then
      LastPage(total, perPage);
      Some(Window(perPage * (page - 1), total - perPage * (page - 1)))
    else if page <= total / perPage && page * perPage <= total then Some(Window(page * perPage - perPage, perPage))
    else Some(Window(0, 0))
  }

  lemma LastPage(total: nat, perPage: nat)
    requires perPage >= 1
    ensures 0 <= total - perPage * (total / perPage) < perPage
  {
  }

  function AtMost(n: nat, limit: nat): nat { if n < limit then n else limit }

  /** What a page should hold: its perPage elements as far as the list goes. */
  function PageOf<T>(all: seq<T>, page: nat, perPage: nat): seq<T>
    requires page >= 1
  {
    LowHigh(page, perPage, |all|);
    all[AtMost((page - 1) * perPage, |all|)..AtMost(page * perPage, |all|)]
  }

  lemma LowHigh(page: nat, perPage: nat, total: nat)
    requires page >= 1
    ensures 0 <= (page - 1) * perPage <= page * perPage
    ensures AtMost((page - 1) * perPage, total) <= AtMost(page * perPage, total)
  {
    assert page * perPage == (page - 1) * perPage + perPage;
  }

  /** A page: of all stored TDs in the order of their keys, perPage from (page - 1) * perPage on, as far as there
      are so many. */
  ghost predicate ListsPage(db: Store, page: nat, perPage: nat, items: seq<Option<Members>>)
    requires page >= 1
  {
    exists keys, tds ::
      && Lists(db, keys, tds)
      && |items| == (if page * perPage <= |tds| then perPage
                     else if (page - 1) * perPage <= |tds| then |tds| - (page - 1) * perPage else 0)
      && forall i {:trigger items[i]} | 0 <= i < |items| ::
           (page - 1) * perPage + i < |tds| && items[i] == Some(tds[(page - 1) * perPage + i])
  }

  lemma PageIsListed(db: Store, page: nat, perPage: nat, items: seq<Option<Members>>)
    requires page >= 1
    requires var wanted := PageOf(Contents(db), page, perPage);
             |items| == |wanted| && forall i | 0 <= i < |wanted| :: items[i] == Some(wanted[i])
    ensures ListsPage(db, page, perPage, items)
  {
    hide Contents, Lists;
    ContentsAreListed(db);
    LowHigh(page, perPage, |Contents(db)|);
    assert page * perPage == (page - 1) * perPage + perPage;
  }

  /** All of them. */
  ghost predicate ListsAll(db: Store, items: seq<Option<Members>>) {
    exists keys, tds ::
      Lists(db, keys, tds) && |items| == |tds| && forall i | 0 <= i < |items| :: items[i] == Some(tds[i])
  }

  lemma AllAreListed(db: Store, items: seq<Option<Members>>)
    requires |items| == |db| && forall i | 0 <= i < |items| :: items[i] == Some(Contents(db)[i])
    ensures ListsAll(db, items)
  {
    hide Contents, Lists;
    ContentsAreListed(db);
  }

  /** The text of all of them. */
  ghost predicate IsListing(number: NumberText, db: Store, text: string) {
    exists keys, tds :: Lists(db, keys, tds) && text == ArrayText(PrintAll(number, Objects(tds)))
  }

  ghost predicate ListsTexts(number: NumberText, db: Store, items: seq<string>) {
    exists keys, tds :: Lists(db, keys, tds) && items == PrintAll(number, Objects(tds))
  }

  lemma TextsAreListed(number: NumberText, db: Store)
    ensures ListsTexts(number, db, Texts(number, db))
  {
    hide Contents, Lists;
    ContentsAreListed(db);
  }

  lemma TextsAreListing(number: NumberText, db: Store)
    ensures IsListing(number, db, ArrayText(Texts(number, db)))
  {
    hide Contents, Lists;
    ContentsAreListed(db);
  }

  lemma PagingRejects(total: nat, page: int, perPage: int)
    ensures PagingAttr(total, page, perPage).None? <==> page < 1 || perPage < 1 || perPage > 100
  {
  }

  /** Where a page lies relative to the last one that begins within the list. */
  lemma PageNumbers(total: nat, page: nat, perPage: nat)
    requires page >= 1 && perPage >= 1
    ensures var q := total / perPage;
            && page * perPage == (page - 1) * perPage + perPage && perPage * (page - 1) == (page - 1) * perPage
            && (page <= q ==> page * perPage <= total)
            && (page == q + 1 ==> (page - 1) * perPage <= total < page * perPage)
            && (page > q + 1 ==> (page - 1) * perPage > total)
  {
    var q := total / perPage;
    LastPage(total, perPage);
    assert (q + 1) * perPage == q * perPage + perPage && perPage * q == q * perPage;
    if page <= q {
      Monotone(page, q, perPage);
    } else if page > q + 1 {
      Monotone(q + 1, page - 1, perPage);
    }
  }

  /** The window is the wanted stretch of the list, or empty if that stretch lies beyond its end. */
  lemma WindowBounds(total: nat, page: nat, perPage: nat)
    requires page >= 1 && 1 <= perPage <= MAX_PER_PAGE
    ensures PagingAttr(total, page, perPage).Some?
    ensures var w := PagingAttr(total, page, perPage).value;
            if (page - 1) * perPage <= total
            then w.offset == (page - 1) * perPage && w.offset + w.limit == AtMost(page * perPage, total)
            else w == Window(0, 0)
  {
    PageNumbers(total, page, perPage);
  }

  /** The window of a page cuts out exactly what the page should hold. */
  lemma WindowIsPage<T>(all: seq<T>, page: nat, perPage: nat)
    requires page >= 1 && 1 <= perPage <= MAX_PER_PAGE
    ensures var w := PagingAttr(|all|, page, perPage);
            && w.Some?
            && w.value.offset + w.value.limit <= |all|
            && all[w.value.offset..w.value.offset + w.value.limit] == PageOf(all, page, perPage)
  {
    WindowBounds(|all|, page, perPage);
    LowHigh(page, perPage, |all|);
    hide PagingAttr;
  }

  lemma Monotone(a: nat, b: nat, c: nat)
    requires a <= b
    ensures a * c <= b * c
  {
    assert b * c == a * c + (b - a) * c;
  }

  /** Pages 1 to n, one after the other. */
  function Pages<T>(all: seq<T>, perPage: nat, n: nat): seq<T> {
    if n == 0 then [] else Pages(all, perPage, n - 1) + PageOf(all, n, perPage)
  }

  /** Concatenated pages give every element once and in order. */
  lemma {:induction false} PagesConcatenate<T>(all: seq<T>, perPage: nat, n: nat)
    ensures Pages(all, perPage, n) == all[..AtMost(n * perPage, |all|)]
  {
    if n > 0 {
      PagesConcatenate(all, perPage, n - 1);
      LowHigh(n, perPage, |all|);
      var lo, hi := AtMost((n - 1) * perPage, |all|), AtMost(n * perPage, |all|);
      assert all[..lo] + all[lo..hi] == all[..hi];
    }
  }

  /** Once a page reaches the end, the pages so far are the whole list and all later ones are empty. */
  lemma PagesComplete<T>(all: seq<T>, perPage: nat, n: nat, later: nat)
    requires n * perPage >= |all| && later > n
    ensures Pages(all, perPage, n) == all && PageOf(all, later, perPage) == []
  {
    PagesConcatenate(all, perPage, n);
    Monotone(n, later - 1, perPage);
    LowHigh(later, perPage, |all|);
  }

  lemma JoinNone()
    ensures Join([]) == ""
  {
  }

  lemma JoinSnoc(texts: seq<string>, i: nat)
    requires i < |texts|
    ensures Join(texts[..i + 1]) == if i == 0 then texts[0] else Join(texts[..i]) + "," + texts[i]
  {
    assert texts[..i + 1][..i] == texts[..i];
  }

  // ---------- the class ----------

  datatype StorageError = NoId | NotUnique | NotFound | BadPaging

  class LevelDBStorage {
    var db: Store

    /** Opens a database, which may already hold TDs. */
    constructor (db: Store)
      ensures this.db == db
    {
      this.db := db;
    }

    method Add(id: string, td: Members) returns (e: Option<StorageError>)
      modifies this
      ensures e == if id == "" then Some(NoId) else if id in old(db) then Some(NotUnique) else None
      ensures db == if e.None? then old(db)[id := td] else old(db)
    {
      if id == "" { return Some(NoId); }
      var found := id in db;
      if found { return Some(NotUnique); }
      db := db[id := td];
      e := None;
    }

    method Get(id: string) returns (td: Option<Members>)
      ensures td == if id in db then Some(db[id]) else None
    {
      td := if id in db then Some(db[id]) else None;
    }

    method Update(id: string, td: Members) returns (e: Option<StorageError>)
      modifies this
      ensures e == if id in old(db) then None else Some(NotFound)
      ensures db == if e.None? then old(db)[id := td] else old(db)
    {
      var found := id in db;
      if !found { return Some(NotFound); }
      db := db[id := td];
      e := None;
    }

    method Delete(id: string) returns (e: Option<StorageError>)
      modifies this
      ensures e == if id in old(db) then None else Some(NotFound)
      ensures db == old(db) - {id}
    {
      var found := id in db;
      if !found { return Some(NotFound); }
      db := db - {id};
      e := None;
    }

    method Total() returns (c: nat)
      ensures c == |db|
    {
      c := 0;
      var iter := Scan(db, ALL);
      ScanAll();
      for i := 0 to |iter|
        invariant c == i
      {
        c := c + 1;
      }
    }

    lemma ScanAll()
      ensures Scan(db, ALL) == SortedKeys(db.Keys)
      ensures |SortedKeys(db.Keys)| == |db|
      ensures forall i | 0 <= i < |db| :: SortedKeys(db.Keys)[i] in db && Contents(db)[i] == db[SortedKeys(db.Keys)[i]]
    {
      SortedUnique(Scan(db, ALL), SortedKeys(db.Keys));
      assert |db.Keys| == |db|;
      forall i | 0 <= i < |db|
        ensures SortedKeys(db.Keys)[i] in db
      {
        assert SortedKeys(db.Keys)[i] in SortedKeys(db.Keys);
      }
    }

    /** One page, with the total; every slot of the page is filled. */
    method List(page: int, perPage: int) returns (r: Option<seq<Option<Members>>>, total: nat)
      ensures r.None? <==> page < 1 || perPage < 1 || perPage > 100
      ensures total == |db|
      ensures r.Some? ==>
                var wanted := PageOf(Contents(db), page, perPage);
                |r.value| == |wanted| && forall i | 0 <= i < |wanted| :: r.value[i] == Some(wanted[i])
      ensures r.Some? ==> ListsPage(db, page, perPage, r.value)
    {
      hide PageOf, PagingAttr, Contents, ListsPage;
      total := Total();
      var window := PagingAttr(total, page, perPage);
      PagingRejects(total, page, perPage);
      if window.None? { return None, total; }
      WindowIsPage(Contents(db), page, perPage);
      var devices := Fill(window.value);
      r := Some(devices);
      PageIsListed(db, page, perPage, devices);
    }

    /** The scan of a listing: the TDs before the window are skipped, those behind it end the scan. */
    method Fill(window: Window) returns (devices: seq<Option<Members>>)
      requires window.offset + window.limit <= |db|
      ensures |devices| == window.limit
      ensures forall k | 0 <= k < window.limit :: devices[k] == Some(Contents(db)[window.offset + k])
    {
      hide Contents, Scan;
      var offset, limit := window.offset, window.limit;
      ghost var all := Contents(db);
      devices := seq(limit, _ => None);
      var iter := Scan(db, ALL);
      ScanAll();
      var i := 0;
      while i < |iter|
        invariant 0 <= i <= |iter| && |devices| == limit
        invariant forall k | 0 <= k < limit && offset + k < i :: devices[k] == Some(all[offset + k])
      {
        var td := db[iter[i]];
        if i >= offset && i < offset + limit {
          devices := devices[i - offset := Some(td)];
        } else if i >= offset + limit {
          break;
        }
        i := i + 1;
      }
    }

    /** The stored bytes of all TDs, as one JSON array. */
    method ListAllBytes(number: NumberText) returns (buffer: string)
      ensures buffer == ArrayText(Texts(number, db)) && IsListing(number, db, buffer)
    {
      ghost var texts := Texts(number, db);
      var iter := Scan(db, ALL);
      ScanAll();
      TextsAt(number);
      TextsAreListing(number, db);
      hide Texts, Print, Join, Scan, IsListing;
      buffer := "[";
      var first := true;
      JoinNone();
      for i := 0 to |iter|
        invariant buffer == "[" + Join(texts[..i])
        invariant first <==> i == 0
      {
        if first {
          first := false;
        } else {
          buffer := buffer + ",";
        }
        buffer := buffer + Print(number, Obj(db[iter[i]]));
        JoinSnoc(texts, i);
      }
      assert texts[..|iter|] == texts;
      buffer := buffer + "]";
    }

    lemma TextsAt(number: NumberText)
      ensures |Texts(number, db)| == |SortedKeys(db.Keys)|
      ensures forall i | 0 <= i < |SortedKeys(db.Keys)| ::
                SortedKeys(db.Keys)[i] in db && Texts(number, db)[i] == Print(number, Obj(db[SortedKeys(db.Keys)[i]]))
    {
      ScanAll();
    }

    /** The same bytes, one TD at a time, copied for the channel. */
    method IterateBytes(number: NumberText) returns (items: seq<string>)
      ensures items == Texts(number, db)
      ensures ListsTexts(number, db, items)
    {
      ghost var texts := Texts(number, db);
      var iter := Scan(db, ALL);
      ScanAll();
      TextsAt(number);
      TextsAreListed(number, db);
      hide Texts, Print, Scan, ListsTexts;
      items := [];
      for i := 0 to |iter|
        invariant items == texts[..i]
      {
        items := items + [Print(number, Obj(db[iter[i]]))];
      }
    }
  }

  /** Splitting the bytes of a listing at its top-level commas recovers exactly the stored bytes, in
      key order. */
  lemma ListingSplits(number: NumberText, db: Store)
    requires Numeric(number)
    ensures Split(ArrayText(Texts(number, db))) == Texts(number, db)
  {
    SplitRecovers(number, Objects(Contents(db)));
  }
}
