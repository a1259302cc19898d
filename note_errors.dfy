/**
 * The error codes of the note example (new/examples/note/constant/errors.go):
 * six consecutive codes from 410, each with its message.
 */
module NoteErrors {
  import opened Wrappers

  /** The named ErrID values. */
  datatype ErrId = EmptyText | NoteNotFound | CannotList | CannotUpdate | CannotDelete | CannotAdd

  /** The integer value of each named code, in declaration order from 410. */
  function Code(e: ErrId): int
  {
    match e
    case EmptyText => 410
    case NoteNotFound => 411
    case CannotList => 412
    case CannotUpdate => 413
    case CannotDelete => 414
    case CannotAdd => 415
  }

  /** The named code an integer stands for, if any. */
  function FromCode(c: int): (r: Option<ErrId>)
    ensures r.Some? <==> 410 <= c <= 415
    ensures r.Some? ==> Code(r.value) == c
  {
    if c == 410 then Some(EmptyText)
    else if c == 411 then Some(NoteNotFound)
    else if c == 412 then Some(CannotList)
    else if c == 413 then Some(CannotUpdate)
    else if c == 414 then Some(CannotDelete)
    else if c == 415 then Some(CannotAdd)
    else None
  }

  /** Every named code reads back as itself, and the codes are 410 to 415 without gaps. */
  lemma CodeRoundTrip(e: ErrId)
    ensures FromCode(Code(e)) == Some(e)
    ensures 410 <= Code(e) <= 415
  {
  }

  /** Distinct names have distinct codes. */
  lemma CodeInjective(a: ErrId, b: ErrId)
    requires Code(a) == Code(b)
    ensures a == b
  {
    CodeRoundTrip(a);
    CodeRoundTrip(b);
  }

  /** The message table, indexed by the code minus 410. */
  const Messages: seq<string> := [
    "Text can not be blank",
    "Note is not found",
    "Can not list note",
    "Note updated failed",
    "NOte deleted failed",
    "NOte added failed"
  ]

  /**
   * String of any ErrID value: the message at index s-410; None for a value
   * outside the table, where the index is out of range and the program
   * panics.
   */
  function String(s: int): (r: Option<string>)
    ensures r.Some? <==> 410 <= s <= 415
    ensures r.Some? ==> r.value in Messages
  {
    if 410 <= s < 410 + |Messages| then Some(Messages[s - 410]) else None
  }

  /** Error of a named code: its String, which never panics for these. */
  function Error(e: ErrId): (m: string)
    ensures String(Code(e)) == Some(m)
    ensures m != ""
  {
    String(Code(e)).value
  }

  /** Different codes give different messages. */
  lemma ErrorInjective(a: ErrId, b: ErrId)
    requires Error(a) == Error(b)
    ensures a == b
  {
    var ms := Messages;
    assert ms[0] != ms[1] && ms[0] != ms[2] && ms[0] != ms[3] && ms[0] != ms[4] && ms[0] != ms[5];
    assert ms[1] != ms[2] && ms[1] != ms[3] && ms[1] != ms[4] && ms[1] != ms[5];
    assert ms[2] != ms[3] && ms[2] != ms[4] && ms[2] != ms[5];
    assert ms[3] != ms[4] && ms[3] != ms[5];
    assert ms[4] != ms[5];
  }

  /** The message of each code, as the table lists it. */
  lemma ErrorMessages()
    ensures Error(EmptyText) == "Text can not be blank" && Error(NoteNotFound) == "Note is not found"
    ensures Error(CannotList) == "Can not list note" && Error(CannotUpdate) == "Note updated failed"
    ensures Error(CannotDelete) == "NOte deleted failed" && Error(CannotAdd) == "NOte added failed"
  {
  }
}
