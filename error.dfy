/**
 * The API error: an exception whose message joins the problem's title and
 * detail, and whose code is the HTTP status.
 */
module MollieError {

  /** The exception's message and code as the base exception holds them, plus the three fields. */
  datatype Error = Error(message: string, code: int, status: int, title: string, detail: string)
  {
    function GetStatus(): int
    {
      status
    }

    function GetTitle(): string
    {
      title
    }

    function GetDetail(): string
    {
      detail
    }
  }

  /** The separator the constructor puts between title and detail. */
  const Separator: string := " - "

  /**
   * `new Error($status, $title, $detail)`: the message is the title, the
   * separator and the detail; the code is the status; the getters return
   * the arguments unchanged.
   */
  function NewError(status: int, title: string, detail: string): (e: Error)
    ensures e.message == title + Separator + detail
    ensures e.code == status
    ensures e.GetStatus() == status && e.GetTitle() == title && e.GetDetail() == detail
  {
    Error(title + Separator + detail, status, status, title, detail)
  }

  // ---------------------------------------------------------------- lemmas

  /**
   * The message splits back into its parts: it starts with the title,
   * continues with the separator, and the rest is exactly the detail.
   */
  lemma MessageParts(status: int, title: string, detail: string)
    ensures var m := NewError(status, title, detail).message;
      |m| == |title| + 3 + |detail| &&
      m[..|title|] == title &&
      m[|title|..|title| + 3] == Separator &&
      m[|title| + 3..] == detail
  {
    var m := NewError(status, title, detail).message;
    assert m == title + Separator + detail;
    assert m[..|title|] == title;
    assert m[|title|..|title| + 3] == Separator;
    assert m[|title| + 3..] == detail;
  }

  /** Two errors with the same title have the same message only when their details agree. */
  lemma MessageDeterminesDetail(s1: int, s2: int, title: string, d1: string, d2: string)
    ensures NewError(s1, title, d1).message == NewError(s2, title, d2).message <==> d1 == d2
  {
    if NewError(s1, title, d1).message == NewError(s2, title, d2).message {
      MessageParts(s1, title, d1);
      MessageParts(s2, title, d2);
    }
  }
}
