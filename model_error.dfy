/** The error of the oldest revision (`src/model/error.rs`): a code, a
    message and an optional wrapped cause. */
module ModelError {
  import opened Common

  datatype ErrorStruct = ErrorStruct(code: string, message: string, cause: Option<ErrorStruct>)

  /** `ErrorStruct::new`: no cause. */
  function New(code: string, message: string): (e: ErrorStruct)
    ensures GetCode(e) == code && GetMessage(e) == message && e.cause.None?
  {
    ErrorStruct(code, message, None)
  }

  /** `ErrorStruct::cause`: wraps `cause`. */
  function Cause(code: string, message: string, cause: ErrorStruct): (e: ErrorStruct)
    ensures GetCode(e) == code && GetMessage(e) == message && e.cause == Some(cause)
  {
    ErrorStruct(code, message, Some(cause))
  }

  function GetCode(e: ErrorStruct): string
  {
    e.code
  }

  function GetMessage(e: ErrorStruct): string
  {
    e.message
  }

  const Head: string := "{ \"code\": \""
  const Mid: string := ", \"message\": \""
  const Tail: string := "\" }"

  /** `Display`: `{ "code": "<code>", "message": "<message>" }`; the cause
      is not shown. */
  function Display(e: ErrorStruct): (text: string)
    ensures |text| == |e.code| + |e.message| + 29
    ensures text[..11] == "{ \"code\": \"" && text[|text| - 3..] == "\" }"
  {
    "{ \"code\": \"" + e.code + "\", \"message\": \"" + e.message + "\" }"
  }

  /** The text around the code: the head, then the code, a quote and the
      rest. */
  lemma DisplayShape(e: ErrorStruct)
    ensures Display(e) == Head + (e.code + ['"'] + (Mid + e.message + Tail))
  {
    assert "\", \"message\": \"" == ['"'] + Mid;
  }

  lemma DropHead(x: string, y: string)
    requires Head + x == Head + y
    ensures x == y
  {
    assert x == (Head + x)[|Head|..];
    assert y == (Head + y)[|Head|..];
  }

  lemma DropFrame(m1: string, m2: string)
    requires Mid + m1 + Tail == Mid + m2 + Tail
    ensures m1 == m2
  {
    assert m1 == (Mid + m1 + Tail)[|Mid|..|Mid| + |m1|];
    assert m2 == (Mid + m2 + Tail)[|Mid|..|Mid| + |m2|];
  }

  /** The text shows the code and the message and nothing else: two errors
      whose codes hold no quote display alike exactly when their codes and
      messages agree. */
  lemma DisplayDetermines(a: ErrorStruct, b: ErrorStruct)
    requires '"' !in a.code && '"' !in b.code
    ensures Display(a) == Display(b) <==> a.code == b.code && a.message == b.message
  {
    if Display(a) == Display(b) {
      DisplayShape(a);
      DisplayShape(b);
      DropHead(a.code + ['"'] + (Mid + a.message + Tail), b.code + ['"'] + (Mid + b.message + Tail));
      SplitAtSeparator('"', a.code, Mid + a.message + Tail, b.code, Mid + b.message + Tail);
      DropFrame(a.message, b.message);
    }
  }

  /** A wrapped cause changes nothing in the text. */
  lemma DisplayHidesCause(code: string, message: string, cause: ErrorStruct)
    ensures Display(Cause(code, message, cause)) == Display(New(code, message))
  {
  }

  /** `From<io::Error>`: code "io", the message the debug text of the
      error's kind. */
  function FromIo(kindDebug: string): (e: ErrorStruct)
    ensures GetCode(e) == "io" && GetMessage(e) == kindDebug && e.cause.None?
  {
    New("io", kindDebug)
  }
}
