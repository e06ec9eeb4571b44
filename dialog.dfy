/** The confirmation dialog. It owns no state of its own: its two handlers act
    only by invoking the callbacks its parent passes in (`handleClose`,
    `setOpen`, `onConfirm`), always in the same order. */
module ConfirmationDialog {
  import opened Wrappers

  /** A callback invocation the dialog makes. */
  datatype Call = OnConfirm | HandleClose | SetOpen(open: bool)

  const DefaultTitle := "Confirmation"
  const DefaultDescription := "Are you sure about what you do?"

  /** The calls `closeHandler` makes: the parent's `handleClose` when it
      supplied one, otherwise `setOpen(false)`; never both, never `onConfirm`. */
  function CloseCalls(hasHandleClose: bool): (r: seq<Call>)
    ensures |r| == 1
    ensures HandleClose in r <==> hasHandleClose
    ensures SetOpen(false) in r <==> !hasHandleClose
    ensures OnConfirm !in r
  {
    if hasHandleClose then [HandleClose] else [SetOpen(false)]
  }

  /** The calls `confirmHandler` makes: `onConfirm` when supplied, strictly
      before the close; with no `onConfirm`, only the close. */
  function ConfirmCalls(hasOnConfirm: bool, hasHandleClose: bool): (r: seq<Call>)
    ensures |r| == if hasOnConfirm then 2 else 1
    ensures OnConfirm in r <==> hasOnConfirm
    ensures hasOnConfirm ==> r[0] == OnConfirm
    ensures r[|r| - 1..] == CloseCalls(hasHandleClose)
  {
    (if hasOnConfirm then [OnConfirm] else []) + CloseCalls(hasHandleClose)
  }

  /** JavaScript truthiness of an optional string: absent and "" are falsy. */
  predicate Truthy(s: Option<string>)
  {
    s.Some? && s.value != ""
  }

  /** The title shown: the caller's when truthy, otherwise the default. */
  function Title(title: Option<string>): (r: string)
    ensures r != ""
    ensures Truthy(title) ==> r == title.value
    ensures !Truthy(title) ==> r == DefaultTitle
  {
    if Truthy(title) then title.value else DefaultTitle
  }

  /** The description shown: the caller's when truthy, otherwise the default prompt. */
  function Description(description: Option<string>): (r: string)
    ensures r != ""
    ensures Truthy(description) ==> r == description.value
    ensures !Truthy(description) ==> r == DefaultDescription
  {
    if Truthy(description) then description.value else DefaultDescription
  }

  /** A dialog instance. `open` stands for the parent's state cell that
      `setOpen` writes; `calls` records every callback invoked. */
  class Dialog {
    var open: bool
    const hasOnConfirm: bool
    const hasHandleClose: bool
    ghost var calls: seq<Call>

    constructor (open: bool, hasOnConfirm: bool, hasHandleClose: bool)
      ensures this.open == open && this.hasOnConfirm == hasOnConfirm
      ensures this.hasHandleClose == hasHandleClose && calls == []
    {
      this.open := open;
      this.hasOnConfirm := hasOnConfirm;
      this.hasHandleClose := hasHandleClose;
      calls := [];
    }

    /** `closeHandler`, run by the "No" button and by dismissing the dialog. */
    method CloseHandler()
      modifies this
      ensures calls == old(calls) + CloseCalls(hasHandleClose)
      ensures open == (if hasHandleClose then old(open) else false)
    {
      if hasHandleClose {
        calls := calls + [HandleClose];
      } else {
        open := false;
        calls := calls + [SetOpen(false)];
      }
    }

    /** `confirmHandler`, run by the "Yes" button. */
    method ConfirmHandler()
      modifies this
      ensures calls == old(calls) + ConfirmCalls(hasOnConfirm, hasHandleClose)
      ensures open == (if hasHandleClose then old(open) else false)
    {
      if hasOnConfirm {
        calls := calls + [OnConfirm];
      }
      CloseHandler();
    }
  }
}
