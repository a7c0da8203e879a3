/**
 The app_boxes and app_bundles tables (relay/internal/store/boxes.go). `Db` is the
 content of the two tables; class `Boxes` is the store that updates them.
 */
module BoxTables {
  import opened Wire

  datatype PublishState = Draft | Published | Archived
  datatype BuildState = Running | Succeeded | Failed

  datatype Box = Box(ns: string, device: string, title: string, runtime: string, state: PublishState,
                     current: string, createdAt: int, updatedAt: int)
  datatype Bundle = Bundle(uri: string, hash: string, size: int, state: BuildState, log: string,
                           builtAt: int, expiresAt: int)

  /** Boxes by id; bundles by their primary key (box_id, version). */
  datatype Db = Db(boxes: map<string, Box>, bundles: map<(string, string), Bundle>)

  // ----- what the statements do to the tables -----

  predicate Owned(db: Db, ns: string, id: string) { id in db.boxes && db.boxes[id].ns == ns }

  function WithState(db: Db, ns: string, id: string, state: PublishState, now: int): Db {
    if Owned(db, ns, id) then db.(boxes := db.boxes[id := db.boxes[id].(state := state, updatedAt := now)]) else db
  }

  function WithCurrent(db: Db, ns: string, id: string, version: string, now: int): Db {
    if Owned(db, ns, id) then db.(boxes := db.boxes[id := db.boxes[id].(current := version, updatedAt := now)]) else db
  }

  /** Insert or replace, refused by the foreign key when there is no such box. */
  function WithBundle(db: Db, id: string, version: string, b: Bundle): Db {
    if id in db.boxes then db.(bundles := db.bundles[(id, version) := b]) else db
  }

  // ----- the two counts -----

  predicate Active(db: Db, ns: string, id: string) { Owned(db, ns, id) && !db.boxes[id].state.Archived? }

  function ActiveBoxes(db: Db, ns: string): set<string> {
    set id | id in db.boxes && Active(db, ns, id)
  }

  predicate RunSince(db: Db, ns: string, since: int, key: (string, string)) {
    key in db.bundles && Owned(db, ns, key.0) && db.bundles[key].builtAt >= since
  }

  function RunsSince(db: Db, ns: string, since: int): set<(string, string)> {
    set key | key in db.bundles && RunSince(db, ns, since, key)
  }

  // ----- the store -----

  class Boxes {
    var boxes: map<string, Box>
    var bundles: map<(string, string), Bundle>

    function Tables(): Db reads this { Db(boxes, bundles) }

    constructor ()
      ensures Tables() == Db(map[], map[])
    { boxes, bundles := map[], map[]; }

    // Zero timestamps are filled in; the primary key refuses an id that is taken.
    method Create(id: string, b: Box, now: int) returns (ok: bool)
      modifies this`boxes
      ensures ok == (id !in old(boxes))
      ensures ok ==> boxes == old(boxes)[id := b.(createdAt := if b.createdAt == 0 then now else b.createdAt,
                                                 updatedAt := if b.updatedAt == 0 then now else b.updatedAt)]
      ensures !ok ==> boxes == old(boxes)
    {
      if id in boxes { return false; }
      var row := b;
      if row.createdAt == 0 { row := row.(createdAt := now); }
      if row.updatedAt == 0 { row := row.(updatedAt := now); }
      boxes := boxes[id := row];
      ok := true;
    }

    // A box of another namespace is not found, even with the right id.
    method Get(ns: string, id: string) returns (r: Option<Box>)
      ensures r.Some? <==> Owned(Tables(), ns, id)
      ensures r.Some? ==> r.value == boxes[id]
    {
      if id in boxes && boxes[id].ns == ns { r := Some(boxes[id]); } else { r := None; }
    }

    method SetState(ns: string, id: string, state: PublishState, now: int) returns (found: bool)
      modifies this`boxes
      ensures found == Owned(old(Tables()), ns, id)
      ensures Tables() == WithState(old(Tables()), ns, id, state, now)
      ensures boxes == if found then old(boxes)[id := old(boxes)[id].(state := state, updatedAt := now)] else old(boxes)
    {
      found := id in boxes && boxes[id].ns == ns;
      if found { boxes := boxes[id := boxes[id].(state := state, updatedAt := now)]; }
    }

    method SetCurrentVersion(ns: string, id: string, version: string, now: int) returns (found: bool)
      modifies this`boxes
      ensures found == Owned(old(Tables()), ns, id)
      ensures Tables() == WithCurrent(old(Tables()), ns, id, version, now)
      ensures boxes == if found then old(boxes)[id := old(boxes)[id].(current := version, updatedAt := now)] else old(boxes)
    {
      found := id in boxes && boxes[id].ns == ns;
      if found { boxes := boxes[id := boxes[id].(current := version, updatedAt := now)]; }
    }

    method PutBundle(id: string, version: string, b: Bundle) returns (ok: bool)
      modifies this`bundles
      ensures ok == (id in boxes)
      ensures Tables() == WithBundle(old(Tables()), id, version, b)
      ensures bundles == if ok then old(bundles)[(id, version) := b] else old(bundles)
    {
      ok := id in boxes;
      if ok { bundles := bundles[(id, version) := b]; }
    }

    method GetBundle(id: string, version: string) returns (r: Option<Bundle>)
      ensures r.Some? <==> (id, version) in bundles
      ensures r.Some? ==> r.value == bundles[(id, version)]
    {
      if (id, version) in bundles { r := Some(bundles[(id, version)]); } else { r := None; }
    }

    // SELECT COUNT(*) ... WHERE namespace = ? AND state != 'archived'
    method ActiveByNamespace(ns: string) returns (n: nat)
      ensures n == |ActiveBoxes(Tables(), ns)|
      ensures n == |set id | id in boxes && boxes[id].ns == ns && (boxes[id].state.Draft? || boxes[id].state.Published?)|
    {
      n := 0;
      var todo := boxes.Keys;
      ghost var db := Tables();
      ghost var counted: set<string> := {};
      while todo != {}
        invariant todo <= boxes.Keys && todo !! counted && n == |counted|
        invariant counted <= boxes.Keys
        invariant forall id :: id in boxes.Keys - todo ==> (id in counted <==> Active(db, ns, id))
        decreases todo
      {
        var id :| id in todo;
        if boxes[id].ns == ns && !boxes[id].state.Archived? {
          n, counted := n + 1, counted + {id};
        }
        todo := todo - {id};
      }
      assert counted == ActiveBoxes(db, ns);
      assert counted == set id | id in boxes && boxes[id].ns == ns && (boxes[id].state.Draft? || boxes[id].state.Published?);
    }

    // SELECT COUNT(*) of the join on the box, WHERE namespace = ? AND built_at >= ?
    method SandboxRunsByNamespace(ns: string, since: int) returns (n: nat)
      ensures n == |RunsSince(Tables(), ns, since)|
      ensures n == |set k | k in bundles && k.0 in boxes && boxes[k.0].ns == ns && !(bundles[k].builtAt < since)|
    {
      n := 0;
      var todo := bundles.Keys;
      ghost var db := Tables();
      ghost var counted: set<(string, string)> := {};
      while todo != {}
        invariant todo <= bundles.Keys && todo !! counted && n == |counted|
        invariant counted <= bundles.Keys
        invariant forall k :: k in bundles.Keys - todo ==> (k in counted <==> RunSince(db, ns, since, k))
        decreases todo
      {
        var k :| k in todo;
        if k.0 in boxes && boxes[k.0].ns == ns && bundles[k].builtAt >= since {
          n, counted := n + 1, counted + {k};
        }
        todo := todo - {k};
      }
      assert counted == RunsSince(db, ns, since);
      assert counted == set k | k in bundles && k.0 in boxes && boxes[k.0].ns == ns && !(bundles[k].builtAt < since);
    }
  }
}
