/** The write-up editor (frontend/src/modals/AddWriteUpModal.js and its
    older copy frontend/src/components/modals/AddWriteUpModal.js, which has
    the same handlers): a title, a body text and whether the saved view is
    showing. */
module AddWriteUp {
  import opened Base
  import opened Text

  /** The guard of `handleSave`: `title.trim() && content.trim()`. */
  predicate CanSave(title: string, content: string) {
    !IsBlank(title) && !IsBlank(content)
  }

  /** A write-up can be saved exactly when both texts hold a character
      that `trim` does not remove. */
  lemma CanSaveMeansVisibleText(title: string, content: string)
    ensures CanSave(title, content) <==>
      (exists i :: 0 <= i < |title| && !IsJsSpace(title[i]))
      && (exists j :: 0 <= j < |content| && !IsJsSpace(content[j]))
  {
  }

  class WriteUpEditor {
    var title: string
    var content: string
    var isSaved: bool

    constructor ()
      ensures title == "" && content == "" && !isSaved
    {
      title, content, isSaved := "", "", false;
    }

    /** The title input's `onChange`. */
    method SetTitle(t: string)
      modifies this
      ensures title == t && content == old(content) && isSaved == old(isSaved)
    {
      title := t;
    }

    /** The text area's `onChange`. */
    method SetContent(c: string)
      modifies this
      ensures content == c && title == old(title) && isSaved == old(isSaved)
    {
      content := c;
    }

    /** `handleSave`: with both texts non-blank, `saved` is the
        `onSaveWriteUp(title, content)` call (untrimmed) and the saved view
        shows; otherwise nothing happens. Title and content are kept. */
    method Save() returns (saved: Option<(string, string)>)
      modifies this
      ensures saved.Some? <==> CanSave(old(title), old(content))
      ensures saved.Some? ==> saved.value == (old(title), old(content)) && isSaved
      ensures saved.None? ==> isSaved == old(isSaved)
      ensures title == old(title) && content == old(content)
    {
      if CanSave(title, content) {
        saved := Some((title, content));
        isSaved := true;
      } else {
        saved := None;
      }
    }

    /** `handleAddNew` ("Write Another"): back to the empty form. */
    method AddNew()
      modifies this
      ensures title == "" && content == "" && !isSaved
    {
      title, content, isSaved := "", "", false;
    }
  }
}
