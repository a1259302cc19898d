/**
 * The note repository of the note example: the Repository interface
 * (new/examples/note/repository/repository.go) and its MongoDB
 * implementation (mgo_respository.go), which maps each error of the data
 * layer to a note error code. The data layer is a parameter: the answer it
 * gives to each call. An in-memory data layer over a map from note id to
 * text serves as the reference the handlers' properties are proved
 * against.
 */
module NoteRepository {
  import opened Wrappers
  import opened NoteErrors

  /** The values of Go's int32. */
  type Int32 = x: int | -0x8000_0000 <= x < 0x8000_0000

  /** The values of Go's uint32, which rand.Uint32 draws from. */
  type Uint32 = x: int | 0 <= x < 0x1_0000_0000

  /** A conversion to int32: the value modulo 2^32, read as two's complement. */
  function ToInt32(x: int): (r: Int32)
    ensures (r - x) % 0x1_0000_0000 == 0
  {
    (x + 0x8000_0000) % 0x1_0000_0000 - 0x8000_0000
  }

  /** A value int32 can hold converts to itself. */
  lemma ToInt32InRange(x: int)
    requires -0x8000_0000 <= x < 0x8000_0000
    ensures ToInt32(x) == x
  {
  }

  /** A note: its id and its text. */
  datatype Note = Note(id: int, text: string)

  /** An error of the repository: one of the note codes, or an error of the data layer passed on. */
  datatype RepoError = Known(code: ErrId) | Other(msg: string)

  /** What List returns: a page of notes and the total count. */
  datatype Listing = Listing(notes: seq<Note>, total: int)

  /** The condition and window of a Find: every note from an offset up to a limit, or the notes with an id. */
  datatype Query = Window(offset: int, limit: int) | ById(id: int)

  /**
   * The data layer (MgoDataLayer), as the answer it gives to each call: an
   * error message or nothing for the writes, the count, and the notes found.
   */
  datatype DataLayer = DataLayer(
    insert: Note -> Option<string>,
    update: (int, string) -> Option<string>,
    count: Result<int, string>,
    find: Query -> Result<seq<Note>, string>,
    delete: int -> Option<string>)

  /** Add: a note with the random id and the text is inserted; a failed insert gives CannotAdd. */
  function Add(dl: DataLayer, rnd: Uint32, text: string): (r: Result<Note, RepoError>)
    ensures r.Ok? <==> dl.insert(Note(rnd, text)).None?
    ensures r.Ok? ==> r.value.id == rnd && r.value.text == text && 0 <= r.value.id < 0x1_0000_0000
    ensures r.Err? ==> r.error == Known(CannotAdd)
  {
    var note := Note(rnd, text);
    if dl.insert(note).Some? then Err(Known(CannotAdd)) else Ok(note)
  }

  /** The offset List asks for: (page-1)*limit computed in int32, so it wraps around. */
  function ListOffset(page: Int32, limit: Int32): Int32
  {
    ToInt32((page - 1) * limit)
  }

  /** While the product fits in int32, the offset is the number of notes on the pages before. */
  lemma ListOffsetExact(page: Int32, limit: Int32)
    requires 1 <= page && 0 <= limit && (page - 1) * limit < 0x8000_0000
    ensures ListOffset(page, limit) == (page - 1) * limit >= 0
  {
    assert 0 <= (page - 1) * limit by {
      MulNonNegative(page - 1, limit);
    }
    ToInt32InRange((page - 1) * limit);
  }

  lemma MulNonNegative(a: int, b: int)
    requires 0 <= a && 0 <= b
    ensures 0 <= a * b
  {
  }

  /** Page 65537 of 65536 notes each asks for offset 0: the product wraps around to the first page. */
  lemma ListOffsetWraps()
    ensures ListOffset(65537, 65536) == 0
  {
    assert (65537 - 1) * 65536 == 0x1_0000_0000;
  }

  /**
   * List: the count first, whose error is passed on as it is; then the
   * window from ListOffset of `limit` notes, whose error gives CannotList;
   * the total is the count converted to int32.
   */
  function List(dl: DataLayer, page: Int32, limit: Int32): (r: Result<Listing, RepoError>)
    ensures dl.count.Err? ==> r == Err(Other(dl.count.error))
    ensures dl.count.Ok? ==> (r.Ok? <==> dl.find(Window(ListOffset(page, limit), limit)).Ok?)
    ensures dl.count.Ok? && r.Err? ==> r.error == Known(CannotList)
    ensures r.Ok? ==> r.value.notes == dl.find(Window(ListOffset(page, limit), limit)).value
    ensures r.Ok? ==> -0x8000_0000 <= r.value.total < 0x8000_0000 && (r.value.total - dl.count.value) % 0x1_0000_0000 == 0
  {
    if dl.count.Err? then Err(Other(dl.count.error))
    else
      var found := dl.find(Window(ListOffset(page, limit), limit));
      if found.Err? then Err(Known(CannotList))
      else Ok(Listing(found.value, ToInt32(dl.count.value)))
  }

  /** Update: the text of the note with the id is set; a failure gives CannotUpdate. */
  function Update(dl: DataLayer, id: int, text: string): (r: Option<RepoError>)
    ensures r.Some? <==> dl.update(id, text).Some?
    ensures r.Some? ==> r.value == Known(CannotUpdate)
  {
    if dl.update(id, text).Some? then Some(Known(CannotUpdate)) else None
  }

  /** FindById: the first note found with the id; a failed find or none found gives NoteNotFound. */
  function FindById(dl: DataLayer, id: int): (r: Result<Note, RepoError>)
    ensures r.Ok? <==> dl.find(ById(id)).Ok? && dl.find(ById(id)).value != []
    ensures r.Ok? ==> r.value == dl.find(ById(id)).value[0]
    ensures r.Err? ==> r.error == Known(NoteNotFound)
  {
    var found := dl.find(ById(id));
    if found.Err? || found.value == [] then Err(Known(NoteNotFound)) else Ok(found.value[0])
  }

  /** Delete: the note with the id is removed; a failure gives CannotDelete. */
  function Delete(dl: DataLayer, id: int): (r: Option<RepoError>)
    ensures r.Some? <==> dl.delete(id).Some?
    ensures r.Some? ==> r.value == Known(CannotDelete)
  {
    if dl.delete(id).Some? then Some(Known(CannotDelete)) else None
  }

  /** The Repository interface, as the answer each of its methods gives. */
  datatype Repository = Repository(
    add: string -> Result<Note, RepoError>,
    list: (Int32, Int32) -> Result<Listing, RepoError>,
    update: (int, string) -> Option<RepoError>,
    findById: int -> Result<Note, RepoError>,
    delete: int -> Option<RepoError>)

  /** NewMgoRepository: the repository over a data layer, with `rnd` the id rand.Uint32 draws. */
  function MgoRepository(dl: DataLayer, rnd: Uint32): Repository
  {
    Repository(
      t => Add(dl, rnd, t),
      (p: Int32, l: Int32) => List(dl, p, l),
      (id, t) => Update(dl, id, t),
      id => FindById(dl, id),
      id => Delete(dl, id))
  }

  /** Every error of the MongoDB repository other than a failed count is one of the note codes. */
  lemma MgoErrorsAreCodes(dl: DataLayer, rnd: Uint32, text: string, id: int, page: Int32, limit: Int32)
    ensures var repo := MgoRepository(dl, rnd);
            && (repo.add(text).Err? ==> repo.add(text).error == Known(CannotAdd))
            && (repo.update(id, text).Some? ==> repo.update(id, text).value == Known(CannotUpdate))
            && (repo.findById(id).Err? ==> repo.findById(id).error == Known(NoteNotFound))
            && (repo.delete(id).Some? ==> repo.delete(id).value == Known(CannotDelete))
            && (repo.list(page, limit).Err? && dl.count.Ok? ==> repo.list(page, limit).error == Known(CannotList))
  {
  }

  /**
   * A reference data layer over a map from note id to text: inserts always
   * succeed, an update or delete of a missing id fails, a find by id finds
   * the one note with that id or none; `window` is what a windowed find
   * answers.
   */
  function MapLayer(store: map<int, string>, window: Result<seq<Note>, string>): DataLayer
  {
    DataLayer(
      (n: Note) => None,
      (id: int, t: string) => if id in store then None else Some("not found"),
      Ok(|store|),
      (q: Query) => if q.Window? then window else if q.id in store then Ok([Note(q.id, store[q.id])]) else Ok([]),
      (id: int) => if id in store then None else Some("not found"))
  }

  /** Over the reference layer, FindById finds exactly the stored notes. */
  lemma FindByIdOnMap(store: map<int, string>, window: Result<seq<Note>, string>, id: int)
    ensures FindById(MapLayer(store, window), id) ==
            if id in store then Ok(Note(id, store[id])) else Err(Known(NoteNotFound))
  {
  }
}
