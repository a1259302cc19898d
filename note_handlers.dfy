/**
 * The request handlers of the note example (new/examples/note/handlers):
 * each checks its request, calls the repository, and maps the repository's
 * errors to the note error codes. A handler's result records the
 * repository calls it made, in order, with the answer it returns.
 */
module NoteHandlers {
  import opened Wrappers
  import opened NoteErrors
  import opened NoteRepository

  /** A call a handler makes on the repository. */
  datatype Call =
    | AddCall(text: string)
    | ListCall(page: Int32, limit: Int32)
    | UpdateCall(id: int, text: string)
    | FindByIdCall(id: int)
    | DeleteCall(id: int)

  /** The calls a handler made, and what it answered. */
  datatype Handled<T> = Handled(calls: seq<Call>, result: Result<T, RepoError>)

  /** The paging of a list request. */
  datatype Pagination = Pagination(limit: Int32, page: Int32)

  /** The answer to a list request: the total and the page of notes. */
  datatype Notes = Notes(total: int, notes: seq<Note>)

  /** addHandler.Handle: an empty text is refused before the repository is called; otherwise Add answers. */
  function AddHandle(repo: Repository, text: string): (h: Handled<Note>)
    ensures text == "" ==> h == Handled([], Err(Known(EmptyText)))
    ensures text != "" ==> h.calls == [AddCall(text)] && h.result == repo.add(text)
  {
    if text == "" then Handled([], Err(Known(EmptyText)))
    else Handled([AddCall(text)], repo.add(text))
  }

  /** The page and limit a list request asks for: page 1 of 20 when it has no paging. */
  function PageOf(pagination: Option<Pagination>): (Int32, Int32)
  {
    if pagination.None? then (1, 20) else (pagination.value.page, pagination.value.limit)
  }

  /**
   * listHandler.Handle: the repository lists the requested page; any error
   * becomes CannotList; otherwise the total, widened to int64, and the notes.
   */
  function ListHandle(repo: Repository, pagination: Option<Pagination>): (h: Handled<Notes>)
    ensures pagination.None? ==> h.calls == [ListCall(1, 20)]
    ensures pagination.Some? ==> h.calls == [ListCall(pagination.value.page, pagination.value.limit)]
    ensures var (page, limit) := PageOf(pagination);
            && (h.result.Ok? <==> repo.list(page, limit).Ok?)
            && (h.result.Err? ==> h.result.error == Known(CannotList))
            && (h.result.Ok? ==> h.result.value == Notes(repo.list(page, limit).value.total,
                                                        repo.list(page, limit).value.notes))
  {
    var (page, limit) := PageOf(pagination);
    var listed := repo.list(page, limit);
    if listed.Err? then Handled([ListCall(page, limit)], Err(Known(CannotList)))
    else Handled([ListCall(page, limit)], Ok(Notes(listed.value.total, listed.value.notes)))
  }

  /**
   * updateHandler.Handle: a note that cannot be found gives NoteNotFound and
   * is not updated; a failed update gives CannotUpdate; otherwise the
   * request itself is the answer.
   */
  function UpdateHandle(repo: Repository, req: Note): (h: Handled<Note>)
    ensures repo.findById(req.id).Err? ==> h == Handled([FindByIdCall(req.id)], Err(Known(NoteNotFound)))
    ensures repo.findById(req.id).Ok? ==> h.calls == [FindByIdCall(req.id), UpdateCall(req.id, req.text)]
    ensures repo.findById(req.id).Ok? && repo.update(req.id, req.text).Some? ==> h.result == Err(Known(CannotUpdate))
    ensures h.result.Ok? <==> repo.findById(req.id).Ok? && repo.update(req.id, req.text).None?
    ensures h.result.Ok? ==> h.result.value == req
  {
    if repo.findById(req.id).Err? then Handled([FindByIdCall(req.id)], Err(Known(NoteNotFound)))
    else if repo.update(req.id, req.text).Some? then
      Handled([FindByIdCall(req.id), UpdateCall(req.id, req.text)], Err(Known(CannotUpdate)))
    else Handled([FindByIdCall(req.id), UpdateCall(req.id, req.text)], Ok(req))
  }

  /**
   * deleteHandler.Handle: a note that cannot be found gives NoteNotFound and
   * is not deleted; the error of a failed delete is passed on unchanged;
   * otherwise the answer is Success = true.
   */
  function DeleteHandle(repo: Repository, id: int): (h: Handled<bool>)
    ensures repo.findById(id).Err? ==> h == Handled([FindByIdCall(id)], Err(Known(NoteNotFound)))
    ensures repo.findById(id).Ok? ==> h.calls == [FindByIdCall(id), DeleteCall(id)]
    ensures repo.findById(id).Ok? && repo.delete(id).Some? ==> h.result == Err(repo.delete(id).value)
    ensures h.result.Ok? <==> repo.findById(id).Ok? && repo.delete(id).None?
    ensures h.result.Ok? ==> h.result.value
  {
    if repo.findById(id).Err? then Handled([FindByIdCall(id)], Err(Known(NoteNotFound)))
    else if repo.delete(id).Some? then Handled([FindByIdCall(id), DeleteCall(id)], Err(repo.delete(id).value))
    else Handled([FindByIdCall(id), DeleteCall(id)], Ok(true))
  }

  /** Over the MongoDB repository, every handler error other than a failed count is one of the note codes. */
  lemma MgoHandlerErrors(dl: DataLayer, rnd: Uint32, text: string, req: Note, id: int, p: Option<Pagination>)
    ensures var repo := MgoRepository(dl, rnd);
            && (AddHandle(repo, text).result.Err? ==> AddHandle(repo, text).result.error in {Known(EmptyText), Known(CannotAdd)})
            && (ListHandle(repo, p).result.Err? ==> ListHandle(repo, p).result.error == Known(CannotList))
            && (UpdateHandle(repo, req).result.Err? ==>
                  UpdateHandle(repo, req).result.error in {Known(NoteNotFound), Known(CannotUpdate)})
            && (DeleteHandle(repo, id).result.Err? ==>
                  DeleteHandle(repo, id).result.error in {Known(NoteNotFound), Known(CannotDelete)})
  {
    MgoErrorsAreCodes(dl, rnd, text, req.id, 1, 1);
  }

  /**
   * The effect of a handler's calls on the reference store, with `rnd` the
   * id a new note gets: only additions, successful updates and deletions
   * change it.
   */
  function Apply(store: map<int, string>, rnd: int, calls: seq<Call>): map<int, string>
    decreases |calls|
  {
    if calls == [] then store
    else
      var c := calls[|calls| - 1];
      var s := Apply(store, rnd, calls[..|calls| - 1]);
      match c
      case AddCall(t) => s[rnd := t]
      case UpdateCall(id, t) => if id in s then s[id := t] else s
      case DeleteCall(id) => s - {id}
      case _ => s
  }

  /** The MongoDB repository over the reference store. */
  function MapRepository(store: map<int, string>, window: Result<seq<Note>, string>, rnd: Uint32): Repository
  {
    MgoRepository(MapLayer(store, window), rnd)
  }

  /** Adding over the reference store: an empty text changes nothing; otherwise the note is stored under the new id. */
  lemma AddOnMap(store: map<int, string>, window: Result<seq<Note>, string>, rnd: Uint32, text: string)
    ensures var h := AddHandle(MapRepository(store, window, rnd), text);
            && (text == "" ==> h.result == Err(Known(EmptyText)) && Apply(store, rnd, h.calls) == store)
            && (text != "" ==> h.result == Ok(Note(rnd, text)) && Apply(store, rnd, h.calls) == store[rnd := text])
  {
    var calls := [AddCall(text)];
    assert calls[..0] == [];
  }

  /**
   * Updating over the reference store succeeds exactly when the note is
   * stored, and then sets its text; otherwise the answer is NoteNotFound and
   * the store is unchanged.
   */
  lemma UpdateOnMap(store: map<int, string>, window: Result<seq<Note>, string>, rnd: Uint32, req: Note)
    ensures var h := UpdateHandle(MapRepository(store, window, rnd), req);
            && (h.result.Ok? <==> req.id in store)
            && (req.id in store ==> h.result == Ok(req) && Apply(store, rnd, h.calls) == store[req.id := req.text])
            && (req.id !in store ==> h.result == Err(Known(NoteNotFound)) && Apply(store, rnd, h.calls) == store)
  {
    FindByIdOnMap(store, window, req.id);
    var find := [FindByIdCall(req.id)];
    var both := find + [UpdateCall(req.id, req.text)];
    assert find[..0] == [] && both[..1] == find;
    assert Apply(store, rnd, find) == store;
  }

  /**
   * Deleting over the reference store succeeds exactly when the note is
   * stored, and then removes it; otherwise the answer is NoteNotFound and
   * the store is unchanged.
   */
  lemma DeleteOnMap(store: map<int, string>, window: Result<seq<Note>, string>, rnd: Uint32, id: int)
    ensures var h := DeleteHandle(MapRepository(store, window, rnd), id);
            && (h.result.Ok? <==> id in store)
            && (id in store ==> h.result == Ok(true) && Apply(store, rnd, h.calls) == store - {id})
            && (id !in store ==> h.result == Err(Known(NoteNotFound)) && Apply(store, rnd, h.calls) == store)
  {
    FindByIdOnMap(store, window, id);
    var find := [FindByIdCall(id)];
    var both := find + [DeleteCall(id)];
    assert find[..0] == [] && both[..1] == find;
    assert Apply(store, rnd, find) == store;
  }

  /** After a successful update, finding the note gives the request back. */
  lemma UpdateThenFind(store: map<int, string>, window: Result<seq<Note>, string>, rnd: Uint32, req: Note)
    requires UpdateHandle(MapRepository(store, window, rnd), req).result.Ok?
    ensures var after := Apply(store, rnd, UpdateHandle(MapRepository(store, window, rnd), req).calls);
            FindById(MapLayer(after, window), req.id) == Ok(req)
  {
    UpdateOnMap(store, window, rnd, req);
    var after := store[req.id := req.text];
    FindByIdOnMap(after, window, req.id);
  }

  /** After a successful delete, the note is not found, and deleting it again fails and changes nothing. */
  lemma DeleteThenDeleteAgain(store: map<int, string>, window: Result<seq<Note>, string>, rnd: Uint32, id: int)
    requires DeleteHandle(MapRepository(store, window, rnd), id).result.Ok?
    ensures var after := Apply(store, rnd, DeleteHandle(MapRepository(store, window, rnd), id).calls);
            && FindById(MapLayer(after, window), id) == Err(Known(NoteNotFound))
            && DeleteHandle(MapRepository(after, window, rnd), id).result == Err(Known(NoteNotFound))
            && Apply(after, rnd, DeleteHandle(MapRepository(after, window, rnd), id).calls) == after
  {
    DeleteOnMap(store, window, rnd, id);
    var after := store - {id};
    FindByIdOnMap(after, window, id);
    DeleteOnMap(after, window, rnd, id);
  }

  /** Calls that only read leave the store as it is, however many there are. */
  lemma {:induction false} ReadsKeepStore(store: map<int, string>, rnd: int, calls: seq<Call>)
    requires forall k :: 0 <= k < |calls| ==> calls[k].ListCall? || calls[k].FindByIdCall?
    ensures Apply(store, rnd, calls) == store
    decreases |calls|
  {
    if calls != [] {
      ReadsKeepStore(store, rnd, calls[..|calls| - 1]);
    }
  }
}
