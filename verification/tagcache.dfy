/** The in-memory cache, services/weatherlink-sql/cache/cache.go, and the tags table behind it,
    services/weatherlink-sql/repository/tags.go. The cache keys its entries by text; what is promised is
    that it behaves like maps keyed by the numbers and names themselves. */
module TagCache {
  import opened Keys

  datatype Option<T> = None | Some(value: T)
  datatype Tag = Tag(id: int, dataType: string)
  datatype Meta = Meta(units: string, description: string)

  type Catalog = map<string, map<string, map<string, Meta>>>

  // ---------- the cache as values ----------

  function FindTag(tags: map<string, Tag>, device: int, name: string): Option<Tag> {
    if TagKey(device, name) in tags then Some(tags[TagKey(device, name)]) else None
  }

  function StoreTag(tags: map<string, Tag>, device: int, name: string, tag: Tag): map<string, Tag> {
    tags[TagKey(device, name) := tag]
  }

  /** The text-keyed tag map is a map from (device, name). */
  lemma FindAfterStoreTag(tags: map<string, Tag>, device: int, name: string, tag: Tag, device': int, name': string)
    ensures FindTag(StoreTag(tags, device, name, tag), device', name')
         == if device == device' && name == name' then Some(tag) else FindTag(tags, device', name')
  {
    if TagKey(device, name) == TagKey(device', name') {
      TagKeyInjective(device, name, device', name');
    }
  }

  function FindMeta(c: Catalog, sensorType: int, structureType: int, field: string): Option<Meta> {
    var st, ds := Decimal(sensorType), Decimal(structureType);
    if st in c && ds in c[st] && field in c[st][ds] then Some(c[st][ds][field]) else None
  }

  /** The setter takes the structure type as text, the getter as a number. */
  function StoreMeta(c: Catalog, sensorType: int, structureType: string, field: string, meta: Meta): Catalog {
    var st := Decimal(sensorType);
    var inner := if st in c then c[st] else map[];
    var fields := if structureType in inner then inner[structureType] else map[];
    c[st := inner[structureType := fields[field := meta]]]
  }

  /** The nested catalog is a flat map, in which an entry is found exactly when the text it was stored
      under is the canonical decimal form of the number asked for. */
  lemma FindAfterStoreMeta(c: Catalog, sensorType: int, structureType: string, field: string, meta: Meta,
                           sensorType': int, structureType': int, field': string)
    ensures FindMeta(StoreMeta(c, sensorType, structureType, field, meta), sensorType', structureType', field')
         == if sensorType == sensorType' && structureType == Decimal(structureType') && field == field'
            then Some(meta) else FindMeta(c, sensorType', structureType', field')
  {
    if Decimal(sensorType) == Decimal(sensorType') {
      DecimalInjective(sensorType, sensorType');
    }
    hide Decimal;
  }

  class Cache {
    var tags: map<string, Tag>
    var catalog: Catalog

    constructor ()
      ensures tags == map[] && catalog == map[]
    {
      tags, catalog := map[], map[];
    }

    method GetTag(deviceId: int, tagName: string) returns (tag: Option<Tag>)
      ensures tag == FindTag(tags, deviceId, tagName)
    {
      var key := TagKey(deviceId, tagName);
      tag := if key in tags then Some(tags[key]) else None;
    }

    method SetTag(deviceId: int, tagName: string, tag: Tag)
      modifies this`tags
      ensures forall d, n :: FindTag(tags, d, n)
                == if d == deviceId && n == tagName then Some(tag) else FindTag(old(tags), d, n)
    {
      ghost var before := tags;
      tags := tags[TagKey(deviceId, tagName) := tag];
      forall d, n ensures FindTag(tags, d, n)
                       == if d == deviceId && n == tagName then Some(tag) else FindTag(before, d, n)
      {
        FindAfterStoreTag(before, deviceId, tagName, tag, d, n);
      }
    }

    method GetCatalogMetadata(sensorType: int, structureType: int, fieldName: string) returns (meta: Option<Meta>)
      ensures meta == FindMeta(catalog, sensorType, structureType, fieldName)
    {
      var stKey, dsKey := Decimal(sensorType), Decimal(structureType);
      if stKey in catalog && dsKey in catalog[stKey] {
        var fields := catalog[stKey][dsKey];
        return if fieldName in fields then Some(fields[fieldName]) else None;
      }
      return None;
    }

    method SetCatalogMetadata(sensorType: int, structureType: string, fieldName: string, meta: Meta)
      modifies this`catalog
      ensures forall s, d, f :: FindMeta(catalog, s, d, f)
                == if s == sensorType && structureType == Decimal(d) && f == fieldName then Some(meta)
                   else FindMeta(old(catalog), s, d, f)
    {
      ghost var before := catalog;
      var stKey := Decimal(sensorType);
      if stKey !in catalog {
        catalog := catalog[stKey := map[]];
      }
      ghost var created := catalog;
      if structureType !in catalog[stKey] {
        catalog := catalog[stKey := catalog[stKey][structureType := map[]]];
      }
      var fields := catalog[stKey][structureType][fieldName := meta];
      catalog := catalog[stKey := catalog[stKey][structureType := fields]];
      assert catalog[stKey] == created[stKey][structureType := fields];
      assert catalog == created[stKey := created[stKey][structureType := fields]];
      assert catalog == StoreMeta(before, sensorType, structureType, fieldName, meta);
      forall s, d, f ensures FindMeta(catalog, s, d, f)
                == if s == sensorType && structureType == Decimal(d) && f == fieldName then Some(meta)
                   else FindMeta(before, s, d, f)
      {
        FindAfterStoreMeta(before, sensorType, structureType, fieldName, meta, s, d, f);
      }
    }
  }

  // ---------- the tags table ----------

  datatype Row = Row(id: int, dataType: string)
  /** rows by (device_id, tag_name), unique by constraint; ids are drawn from a sequence. */
  datatype TagTable = TagTable(rows: map<(int, string), Row>, nextId: int)

  /** CreateOrUpdate: the upsert that returns the row's id. A conflict keeps the id, replaces the data type,
      and uses up a sequence value all the same. */
  function Upsert(t: TagTable, device: int, name: string, dataType: string): (TagTable, int) {
    var k := (device, name);
    var id := if k in t.rows then t.rows[k].id else t.nextId;
    (TagTable(t.rows[k := Row(id, dataType)], t.nextId + 1), id)
  }

  ghost predicate TableOk(t: TagTable) {
    && (forall k :: k in t.rows ==> t.rows[k].id < t.nextId)
    && (forall k, l :: k in t.rows && l in t.rows && t.rows[k].id == t.rows[l].id ==> k == l)
  }

  /** A tag read from or written to the database for this device and name. */
  ghost predicate TagOf(t: TagTable, device: int, name: string, id: int) {
    (device, name) in t.rows && t.rows[(device, name)].id == id
  }

  ghost predicate Agrees(tags: map<string, Tag>, t: TagTable) {
    forall d, n :: FindTag(tags, d, n).Some? ==> TagOf(t, d, n, FindTag(tags, d, n).value.id)
  }

  /** An upsert returns the id of the unique row, an old one or the next of the sequence, moves no other row's id,
      and uses up one id of the sequence in any case. */
  lemma UpsertKeepsIds(t: TagTable, device: int, name: string, dataType: string)
    requires TableOk(t)
    ensures var (t', id) := Upsert(t, device, name, dataType);
            && TableOk(t') && TagOf(t', device, name, id)
            && (forall d, n, i :: TagOf(t, d, n, i) ==> TagOf(t', d, n, i))
            && t'.nextId == t.nextId + 1 && ((device, name) !in t.rows ==> id == t.nextId)
            && t'.rows[(device, name)].dataType == dataType
  {
  }

  lemma UpsertKeepsAgreement(tags: map<string, Tag>, t: TagTable, device: int, name: string, dataType: string)
    requires TableOk(t) && Agrees(tags, t)
    ensures Agrees(tags, Upsert(t, device, name, dataType).0)
  {
    UpsertKeepsIds(t, device, name, dataType);
    hide FindTag, Upsert, TagOf;
  }

  lemma StoreKeepsAgreement(tags: map<string, Tag>, t: TagTable, device: int, name: string, tag: Tag)
    requires Agrees(tags, t) && TagOf(t, device, name, tag.id)
    ensures Agrees(StoreTag(tags, device, name, tag), t)
  {
    hide FindTag, StoreTag;
    forall d, n ensures FindTag(StoreTag(tags, device, name, tag), d, n).Some? ==>
                          TagOf(t, d, n, FindTag(StoreTag(tags, device, name, tag), d, n).value.id)
    {
      FindAfterStoreTag(tags, device, name, tag, d, n);
    }
  }

  /** Start-up: every row is put into the cache, in whatever order the query returns them. */
  function LoadAll(tags: map<string, Tag>, rows: seq<((int, string), Row)>): map<string, Tag>
    decreases |rows|
  {
    if rows == [] then tags
    else
      var (k, row) := rows[0];
      LoadAll(StoreTag(tags, k.0, k.1, Tag(row.id, row.dataType)), rows[1..])
  }

  /** After it the cache has each of the rows, with its id and data type, and is otherwise as before. */
  lemma {:induction false} LoadAllLoads(tags: map<string, Tag>, rows: seq<((int, string), Row)>, d: int, n: string)
    requires forall i, j :: 0 <= i < j < |rows| ==> rows[i].0 != rows[j].0
    ensures forall i :: 0 <= i < |rows| && rows[i].0 == (d, n) ==>
              FindTag(LoadAll(tags, rows), d, n) == Some(Tag(rows[i].1.id, rows[i].1.dataType))
    ensures (forall i :: 0 <= i < |rows| ==> rows[i].0 != (d, n)) ==>
              FindTag(LoadAll(tags, rows), d, n) == FindTag(tags, d, n)
    decreases |rows|
  {
    hide FindTag, StoreTag;
    if rows != [] {
      var (k, row) := rows[0];
      assert (k.0, k.1) == k;
      var more := rows[1..];
      assert forall i :: 0 <= i < |more| ==> more[i] == rows[i + 1];
      FindAfterStoreTag(tags, k.0, k.1, Tag(row.id, row.dataType), d, n);
      LoadAllLoads(StoreTag(tags, k.0, k.1, Tag(row.id, row.dataType)), more, d, n);
    }
  }

  lemma {:induction false} LoadAllAgrees(tags: map<string, Tag>, rows: seq<((int, string), Row)>, t: TagTable)
    requires Agrees(tags, t)
    requires forall i :: 0 <= i < |rows| ==> rows[i].0 in t.rows && t.rows[rows[i].0] == rows[i].1
    ensures Agrees(LoadAll(tags, rows), t)
    decreases |rows|
  {
    if rows != [] {
      var (k, row) := rows[0];
      assert (k.0, k.1) == k;
      StoreKeepsAgreement(tags, t, k.0, k.1, Tag(row.id, row.dataType));
      LoadAllAgrees(StoreTag(tags, k.0, k.1, Tag(row.id, row.dataType)), rows[1..], t);
    }
  }
}
