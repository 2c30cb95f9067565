/** The new-task input (src/components/tasks/TaskAddForm.tsx). */
module TaskAddForm {
  import opened Wrappers
  import opened Text

  /** What a submit hands to `onAddTask`: nothing for blank text, otherwise
      the text as typed, untrimmed. */
  function Submission(text: string): (r: Option<string>)
    ensures r.None? <==> AllSpace(text)
    ensures r.Some? ==> r.value == text
  {
    TrimEmptyIffAllSpace(text);
    if Trim(text) == "" then None else Some(text)
  }

  class AddForm {
    var text: string

    constructor ()
      ensures text == ""
    {
      text := "";
    }

    /** The input's `onChange`. */
    method SetText(s: string)
      modifies this
      ensures text == s
    {
      text := s;
    }

    /** `handleAddTask`: `submitted` is the one `onAddTask` call, if any.
        Blank text stays in the box; a real submit clears it. */
    method Submit() returns (submitted: Option<string>)
      modifies this
      ensures submitted == Submission(old(text))
      ensures submitted.None? ==> text == old(text)
      ensures submitted.Some? ==> text == ""
    {
      if Trim(text) == "" {
        return None;
      }
      submitted := Some(text);
      text := "";
    }
  }
}
