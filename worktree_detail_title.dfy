/** The branch-name editor in the worktree detail title
    (WorktreeDetailTitleView.swift): a label that, when clicked, turns into a
    text field holding a draft of the new branch name. */
module WorktreeDetailTitle {
  import opened Wrappers
  import opened Foundation

  /** What a commit of `draft` hands to `onSubmit`, if anything: the trimmed
      draft, provided it is neither empty nor the current branch name. */
  function CommitSubmission(draft: string, branchName: string): (r: Option<string>)
    ensures r.Some? <==> !IsBlank(draft) && Trim(draft) != branchName
    ensures r.Some? ==> r.value == Trim(draft)
    ensures r.Some? ==> r.value != [] && r.value != branchName
    ensures r.Some? ==> !IsWhitespaceOrNewline(r.value[0]) && !IsWhitespaceOrNewline(r.value[|r.value| - 1])
    ensures r.Some? ==> exists i, j :: 0 <= i <= j <= |draft| && draft[i..j] == r.value
  {
    var trimmed := Trim(draft);
    if trimmed == [] then None
    else if trimmed != branchName then Some(trimmed)
    else None
  }

  /** Whitespace around a draft makes no difference to what is submitted. */
  lemma CommitIgnoresSurroundingWhitespace(draft: string, branchName: string)
    ensures CommitSubmission(Trim(draft), branchName) == CommitSubmission(draft, branchName)
  {
    TrimIdempotent(draft);
  }

  /** Committing the branch name itself, however padded, submits nothing. */
  lemma CommitOfBranchNameSubmitsNothing(branchName: string, draft: string)
    requires Trim(draft) == branchName
    ensures CommitSubmission(draft, branchName) == None
  {
  }

  class TitleEditor {
    /** The branch the title shows; `onSubmit` requests a switch away from it. */
    const branchName: string
    var isEditing: bool
    var draftName: string
    var isFocused: bool
    /** The values passed to `onSubmit`, oldest first. */
    var submitted: seq<string>

    /** The text field is focused exactly while it is shown: editing begins
        with focus, and losing focus ends editing. */
    ghost predicate Valid()
      reads this
    {
      isFocused <==> isEditing
    }

    constructor (branchName: string)
      ensures Valid()
      ensures this.branchName == branchName
      ensures !isEditing && draftName == "" && !isFocused && submitted == []
    {
      this.branchName := branchName;
      isEditing := false;
      draftName := "";
      isFocused := false;
      submitted := [];
    }

    /** `beginEditing()`: the draft starts as the branch name, and the field
        appears focused. */
    method BeginEditing()
      requires Valid()
      modifies this
      ensures Valid()
      ensures isEditing && isFocused && draftName == branchName
      ensures submitted == old(submitted)
    {
      draftName := branchName;
      isEditing := true;
      isFocused := true;
    }

    /** Typing into the text field, which is bound to the draft while editing;
        with no field shown there is nothing to type into. */
    method EditDraft(text: string)
      requires Valid()
      modifies this
      ensures Valid()
      ensures draftName == if old(isEditing) then text else old(draftName)
      ensures isEditing == old(isEditing) && isFocused == old(isFocused) && submitted == old(submitted)
    {
      if isEditing {
        draftName := text;
      }
    }

    /** `cancel()`: leaves editing, drops the draft, and submits nothing. */
    method Cancel()
      requires Valid()
      modifies this
      ensures Valid()
      ensures !isEditing && !isFocused && draftName == branchName
      ensures submitted == old(submitted)
    {
      isEditing := false;
      draftName := branchName;
      isFocused := false;
    }

    /** `commit()`: leaves editing whatever the draft, then submits the trimmed
        draft exactly once unless it is empty or the current branch name. The
        draft itself is left as typed. */
    method Commit()
      requires Valid()
      modifies this
      ensures Valid()
      ensures !isEditing && !isFocused && draftName == old(draftName)
      ensures submitted == old(submitted) + match CommitSubmission(old(draftName), branchName)
                                            case Some(name) => [name]
                                            case None => []
    {
      var trimmed := Trim(draftName);
      isEditing := false;
      isFocused := false;
      if trimmed == [] {
        return;
      }
      if trimmed != branchName {
        submitted := submitted + [trimmed];
      }
    }

    /** The `onChange(of: isFocused)` handler, attached to the text field and so
        active only while editing: losing focus behaves as `cancel()`. */
    method FocusChanged(focused: bool)
      requires Valid()
      modifies this
      ensures Valid()
      ensures old(isEditing) && !focused ==>
        !isEditing && !isFocused && draftName == branchName && submitted == old(submitted)
      ensures old(isEditing) && focused ==>
        isEditing && isFocused && draftName == old(draftName) && submitted == old(submitted)
      ensures !old(isEditing) ==>
        isEditing == old(isEditing) && isFocused == old(isFocused) && draftName == old(draftName) && submitted == old(submitted)
    {
      if isEditing && !focused {
        Cancel();
      }
    }
  }

  /** A whole editing session: begin, type `text`, press Return. What is
      submitted is decided by the trimmed text alone, and editing is over. */
  method EditAndCommit(editor: TitleEditor, text: string)
    requires editor.Valid()
    modifies editor
    ensures editor.Valid() && !editor.isEditing && !editor.isFocused
    ensures editor.submitted == old(editor.submitted) + match CommitSubmission(text, editor.branchName)
                                                        case Some(name) => [name]
                                                        case None => []
  {
    editor.BeginEditing();
    editor.EditDraft(text);
    editor.Commit();
  }
}
