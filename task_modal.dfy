/**
 * The create/edit dialog (components/TaskModal.tsx): two form fields, the
 * effect that fills them from the task being edited, the submit rule
 * (save the trimmed fields only when the trimmed title is non-empty, then
 * clear and close), the confirmation-gated delete, and what is shown.
 *
 * The callbacks the dialog receives (`onSave`, `onClose`, `onDelete`) and
 * the `window.confirm` prompt are observed as the sequence of effects a
 * handler produces, in the order it produces them.
 */
module TaskModal {
  import opened Types

  datatype ModalMode = Create | Edit

  /** A call the dialog makes to the outside. */
  datatype ModalEffect =
    | Save(title: string, description: string)   // onSave(title, description)
    | Close                                      // onClose()
    | AskConfirm                                 // window.confirm(...)
    | Delete                                     // onDelete()

  /** The code points `String.prototype.trim` removes: ECMAScript WhiteSpace and LineTerminator. */
  predicate IsJsWhitespace(c: char): (b: bool)
    ensures c == ' ' || c == '\t' || c == '\n' || c == '\r' ==> b
    ensures '0' <= c <= '9' || 'a' <= c <= 'z' || 'A' <= c <= 'Z' ==> !b
    ensures c == '\U{200B}' ==> !b
  {
    || c == '\t' || c == '\n' || c == '\U{B}' || c == '\U{C}' || c == '\r' || c == ' '
    || c == '\U{A0}' || c == '\U{1680}' || ('\U{2000}' <= c <= '\U{200A}')
    || c == '\U{2028}' || c == '\U{2029}' || c == '\U{202F}' || c == '\U{205F}'
    || c == '\U{3000}' || c == '\U{FEFF}'
  }

  /** `s` with its maximal whitespace prefix dropped. */
  function TrimStart(s: string): (r: string)
    ensures |r| <= |s| && r == s[|s| - |r|..]
    ensures forall i :: 0 <= i < |s| - |r| ==> IsJsWhitespace(s[i])
    ensures r == [] || !IsJsWhitespace(r[0])
  {
    if |s| > 0 && IsJsWhitespace(s[0]) then TrimStart(s[1..]) else s
  }

  /** `s` with its maximal whitespace suffix dropped. */
  function TrimEnd(s: string): (r: string)
    ensures |r| <= |s| && r == s[..|r|]
    ensures forall i :: |r| <= i < |s| ==> IsJsWhitespace(s[i])
    ensures r == [] || !IsJsWhitespace(r[|r| - 1])
  {
    if |s| > 0 && IsJsWhitespace(s[|s| - 1]) then TrimEnd(s[..|s| - 1]) else s
  }

  /** `s.trim()`: the middle of `s`, between its whitespace prefix and suffix. */
  function Trim(s: string): (r: string)
    ensures r == [] || (!IsJsWhitespace(r[0]) && !IsJsWhitespace(r[|r| - 1]))
    ensures |r| <= |TrimStart(s)|
    ensures var start := |s| - |TrimStart(s)|; r == s[start..start + |r|]
    ensures var start := |s| - |TrimStart(s)|;
            (forall i :: 0 <= i < start ==> IsJsWhitespace(s[i]))
            && (forall i :: start + |r| <= i < |s| ==> IsJsWhitespace(s[i]))
  {
    TrimEnd(TrimStart(s))
  }

  /** The trimmed string is empty exactly when the string is all whitespace. */
  lemma TrimEmptyIff(s: string)
    ensures Trim(s) == [] <==> forall i :: 0 <= i < |s| ==> IsJsWhitespace(s[i])
  {
    var t := TrimStart(s);
    if Trim(s) == [] {
      assert t == [];
    }
  }

  /** Trimming twice is trimming once. */
  lemma TrimIdempotent(s: string)
    ensures Trim(Trim(s)) == Trim(s)
  {
    var r := Trim(s);
    assert TrimStart(r) == r;
    assert TrimEnd(r) == r;
  }

  class TaskForm {
    var title: string
    var description: string

    constructor ()
      ensures title == "" && description == ""
    {
      title := "";
      description := "";
    }

    /** The effect run when the task or the open flag changes: pre-fill from the task, or clear. */
    method SyncWithTask(task: Option<Task>)
      modifies this
      ensures task.Some? ==> title == task.value.title && description == task.value.description
      ensures task.None? ==> title == "" && description == ""
    {
      match task
      case Some(t) =>
        title := t.title;
        description := t.description;
      case None =>
        title := "";
        description := "";
    }

    /** Typing into the title input. */
    method ChangeTitle(value: string)
      modifies this
      ensures title == value && description == old(description)
    {
      title := value;
    }

    /** Typing into the description textarea. */
    method ChangeDescription(value: string)
      modifies this
      ensures description == value && title == old(title)
    {
      description := value;
    }

    /**
     * `handleSubmit`: with a blank title nothing happens; otherwise save the
     * trimmed fields, clear both, and close, in that order.
     */
    method HandleSubmit() returns (effects: seq<ModalEffect>)
      modifies this
      ensures Trim(old(title)) == "" ==>
                effects == [] && title == old(title) && description == old(description)
      ensures Trim(old(title)) != "" ==>
                effects == [Save(Trim(old(title)), Trim(old(description))), Close]
                && title == "" && description == ""
      ensures effects == [] <==> forall i :: 0 <= i < |old(title)| ==> IsJsWhitespace(old(title)[i])
      ensures effects != [] ==> effects[0].Save? && effects[0].title != ""
                                && Trim(effects[0].title) == effects[0].title
    {
      TrimEmptyIff(title);
      var trimmed := Trim(title);
      if trimmed != "" {
        TrimIdempotent(title);
        effects := [Save(trimmed, Trim(description)), Close];
        title := "";
        description := "";
      } else {
        effects := [];
      }
    }
  }

  /**
   * `handleDelete`: ask for confirmation only when a delete handler was
   * given (the `&&` short-circuits), and delete then close only when the
   * user confirms.
   */
  function DeleteEffects(hasOnDelete: bool, confirmed: bool): (effects: seq<ModalEffect>)
    ensures AskConfirm in effects <==> hasOnDelete
    ensures Delete in effects <==> hasOnDelete && confirmed
    ensures Close in effects <==> hasOnDelete && confirmed
    ensures Delete in effects ==> effects == [AskConfirm, Delete, Close]
    ensures !hasOnDelete ==> effects == []
    ensures hasOnDelete && !confirmed ==> effects == [AskConfirm]
  {
    if !hasOnDelete then []
    else if confirmed then [AskConfirm, Delete, Close]
    else [AskConfirm]
  }

  /** What the dialog shows. */
  datatype ModalView = ModalView(heading: string, submitLabel: string, showDelete: bool)

  /** Nothing when closed; otherwise the mode's heading and button, and a delete button in edit mode when a handler is given. */
  function Render(isOpen: bool, mode: ModalMode, hasOnDelete: bool): (v: Option<ModalView>)
    ensures v.None? <==> !isOpen
    ensures v.Some? ==> (v.value.showDelete <==> mode == Edit && hasOnDelete)
    ensures v.Some? ==> v.value.heading == (if mode == Create then "Create New Task" else "Edit Task")
    ensures v.Some? ==> v.value.submitLabel == (if mode == Create then "Create Task" else "Save Changes")
  {
    if !isOpen then None
    else Some(ModalView(
      if mode == Create then "Create New Task" else "Edit Task",
      if mode == Create then "Create Task" else "Save Changes",
      mode == Edit && hasOnDelete))
  }
}
