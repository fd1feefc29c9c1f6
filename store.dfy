/**
 * The media collection as the core uses it: documents keyed by their
 * unique slug (src/schemas/media.ts:129-130), written by slug-filtered
 * upserts, updates by `_id` and whole-document saves.
 */
module Store {
  import opened Wrappers
  import opened Schema

  /** The collection's contents and the next `_id` it will hand out. */
  datatype StoreState = StoreState(docs: map<string, Document>, nextId: ObjectId)

  /**
   * Every document is filed under its own slug, and `_id`s are distinct
   * and already handed out.
   */
  predicate Wf(st: StoreState) {
    && (forall s :: s in st.docs ==> st.docs[s].media.slug == Some(s) && st.docs[s].id < st.nextId)
    && (forall a, b :: a in st.docs && b in st.docs && st.docs[a].id == st.docs[b].id ==> a == b)
  }

  /** The unique index on `slug`: no two stored documents share a slug. */
  lemma SlugIsUnique(st: StoreState, a: string, b: string)
    requires Wf(st) && a in st.docs && b in st.docs
    requires st.docs[a].media.slug == st.docs[b].media.slug
    ensures a == b && st.docs[a] == st.docs[b]
  {
  }

  /** `findOne({ _id: id })`. */
  function DocWithId(st: StoreState, id: ObjectId): (r: Option<Document>)
    requires Wf(st)
    ensures r.Some? <==> exists s :: s in st.docs && st.docs[s].id == id
    ensures r.Some? ==>
      && r.value.id == id && r.value.media.slug.Some?
      && r.value.media.slug.value in st.docs && st.docs[r.value.media.slug.value] == r.value
  {
    if exists s :: s in st.docs && st.docs[s].id == id then
      var s :| s in st.docs && st.docs[s].id == id;
      Some(st.docs[s])
    else None
  }

  /**
   * `findOneAndUpdate({ slug }, update, { upsert: true, new: true })`:
   * the keys the update carries replace the document's and every other
   * key is kept; without a document one is inserted with the schema
   * defaults. Returns the new state and the document as written.
   */
  function UpsertSet(st: StoreState, slug: string, update: Media): (r: (StoreState, Document))
    ensures r.0.docs.Keys == st.docs.Keys + {slug} && r.0.docs[slug] == r.1
    ensures forall s :: s in st.docs && s != slug ==> r.0.docs[s] == st.docs[s]
    ensures slug in st.docs ==> r.0.nextId == st.nextId
    ensures slug in st.docs ==> r.1.id == st.docs[slug].id && r.1.media == Overlay(st.docs[slug].media, update)
    ensures slug !in st.docs ==> r.1.id == st.nextId && r.1.media == Overlay(Inserted(slug), update)
    ensures slug !in st.docs ==> r.0.nextId == st.nextId + 1
  {
    if slug in st.docs then
      var d := Document(st.docs[slug].id, Overlay(st.docs[slug].media, update));
      (st.(docs := st.docs[slug := d]), d)
    else
      var d := Document(st.nextId, Overlay(Inserted(slug), update));
      (StoreState(st.docs[slug := d], st.nextId + 1), d)
  }

  /**
   * `findOneAndUpdate({ slug }, { $setOnInsert: data }, { upsert: true, new: true })`:
   * an existing document is returned untouched; otherwise `data` is
   * inserted with the schema defaults.
   */
  function SetOnInsert(st: StoreState, slug: string, data: Media): (r: (StoreState, Document))
    ensures r.0.docs.Keys == st.docs.Keys + {slug} && r.0.docs[slug] == r.1
    ensures forall s :: s in st.docs ==> r.0.docs[s] == st.docs[s]
    ensures slug in st.docs ==> r.0 == st
    ensures slug !in st.docs ==> r.1.id == st.nextId && r.1.media == Overlay(Inserted(slug), data)
    ensures slug !in st.docs ==> r.0.nextId == st.nextId + 1
  {
    if slug in st.docs then (st, st.docs[slug])
    else
      var d := Document(st.nextId, Overlay(Inserted(slug), data));
      (StoreState(st.docs[slug := d], st.nextId + 1), d)
  }

  /**
   * `updateOne({ _id: id }, { $set: { related: ids } })`: only the
   * `related` key of the document with that `_id` changes; nothing
   * happens when there is none.
   */
  function SetRelated(st: StoreState, id: ObjectId, ids: seq<ObjectId>): (r: StoreState)
    ensures r.docs.Keys == st.docs.Keys && r.nextId == st.nextId
    ensures forall s :: s in st.docs && st.docs[s].id != id ==> r.docs[s] == st.docs[s]
    ensures forall s :: s in st.docs && st.docs[s].id == id ==>
      r.docs[s] == Document(id, st.docs[s].media.(related := Some(ids)))
  {
    var docs := map s | s in st.docs ::
      if st.docs[s].id == id then Document(id, st.docs[s].media.(related := Some(ids))) else st.docs[s];
    StoreState(docs, st.nextId)
  }

  /** An upsert keeps the store well formed when the update keeps the slug. */
  lemma UpsertSetKeepsWf(st: StoreState, slug: string, update: Media)
    requires Wf(st) && (update.slug.None? || update.slug == Some(slug))
    ensures Wf(UpsertSet(st, slug, update).0)
  {
    var r := UpsertSet(st, slug, update);
    assert r.1.media.slug == Some(slug);
    forall a, b | a in r.0.docs && b in r.0.docs && r.0.docs[a].id == r.0.docs[b].id
      ensures a == b
    {
      if a != slug && b != slug {
        assert r.0.docs[a] == st.docs[a] && r.0.docs[b] == st.docs[b];
      }
    }
  }

  lemma SetOnInsertKeepsWf(st: StoreState, slug: string, data: Media)
    requires Wf(st) && (data.slug.None? || data.slug == Some(slug))
    ensures Wf(SetOnInsert(st, slug, data).0)
  {
    var r := SetOnInsert(st, slug, data);
    if slug !in st.docs {
      assert r.1.media.slug == Some(slug);
      forall a, b | a in r.0.docs && b in r.0.docs && r.0.docs[a].id == r.0.docs[b].id
        ensures a == b
      {
        if a != slug && b != slug {
          assert r.0.docs[a] == st.docs[a] && r.0.docs[b] == st.docs[b];
        }
      }
    }
  }

  lemma SetRelatedKeepsWf(st: StoreState, id: ObjectId, ids: seq<ObjectId>)
    requires Wf(st)
    ensures Wf(SetRelated(st, id, ids))
  {
  }

  /**
   * `media.save()` of a loaded document whose slug did not change: the
   * stored document with its `_id` is replaced whole.
   */
  function Save(st: StoreState, d: Document): (r: StoreState)
    requires Wf(st)
    requires DocWithId(st, d.id).Some? && DocWithId(st, d.id).value.media.slug == d.media.slug
    ensures Wf(r) && r.docs.Keys == st.docs.Keys && r.nextId == st.nextId
    ensures r.docs[d.media.slug.value] == d
    ensures forall s :: s in st.docs && s != d.media.slug.value ==> r.docs[s] == st.docs[s]
  {
    st.(docs := st.docs[d.media.slug.value := d])
  }

  /** The collection, updated in place by the jobs that share it. */
  class MediaStore {
    var docs: map<string, Document>
    var nextId: ObjectId

    function State(): StoreState
      reads this
    {
      StoreState(docs, nextId)
    }

    predicate Valid()
      reads this
    {
      Wf(State())
    }

    constructor ()
      ensures Valid() && docs == map[] && nextId == 0
    {
      docs := map[];
      nextId := 0;
    }

    method FindById(id: ObjectId) returns (r: Option<Document>)
      requires Valid()
      ensures r == DocWithId(State(), id)
    {
      if exists s :: s in docs && docs[s].id == id {
        var s :| s in docs && docs[s].id == id;
        r := Some(docs[s]);
      } else {
        r := None;
      }
    }

    /** `findOneAndUpdate` with a plain update: see `UpsertSet`. */
    method FindOneAndUpdate(slug: string, update: Media) returns (d: Document)
      requires Valid()
      requires update.slug.None? || update.slug == Some(slug)
      modifies this
      ensures Valid()
      ensures (State(), d) == UpsertSet(old(State()), slug, update)
    {
      UpsertSetKeepsWf(State(), slug, update);
      var r := UpsertSet(State(), slug, update);
      docs, nextId, d := r.0.docs, r.0.nextId, r.1;
    }

    /** `findOneAndUpdate` with `$setOnInsert`: see `SetOnInsert`. */
    method FindOneAndSetOnInsert(slug: string, data: Media) returns (d: Document)
      requires Valid()
      requires data.slug.None? || data.slug == Some(slug)
      modifies this
      ensures Valid()
      ensures (State(), d) == SetOnInsert(old(State()), slug, data)
    {
      SetOnInsertKeepsWf(State(), slug, data);
      var r := SetOnInsert(State(), slug, data);
      docs, nextId, d := r.0.docs, r.0.nextId, r.1;
    }

    /** `updateOne`/`findByIdAndUpdate` of `related`: see `SetRelated`. */
    method UpdateRelated(id: ObjectId, ids: seq<ObjectId>)
      requires Valid()
      modifies this
      ensures Valid()
      ensures State() == SetRelated(old(State()), id, ids)
    {
      SetRelatedKeepsWf(State(), id, ids);
      var r := SetRelated(State(), id, ids);
      docs, nextId := r.docs, r.nextId;
    }

    /** `media.save()`: see `Save`. */
    method SaveDocument(d: Document)
      requires Valid()
      requires DocWithId(State(), d.id).Some?
      requires DocWithId(State(), d.id).value.media.slug == d.media.slug
      modifies this
      ensures Valid()
      ensures State() == Save(old(State()), d)
    {
      docs := Save(State(), d).docs;
    }
  }
}
