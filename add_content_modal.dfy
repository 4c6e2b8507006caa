/** The "add content" dialog: a four-field form, its validation and the
    creation of a new item at the head of the content list. */
module AddContentModal {
  import opened Base
  import opened Text
  import opened Types
  import opened Helpers
  import opened SampleData
  import opened AppState

  datatype ContentForm = ContentForm(title: string, description: string, platform: Platform, assignedTo: string)

  /** The form as the dialog opens and after every successful submit. */
  const EmptyForm := ContentForm("", "", LinkedIn, "tm1")

  /** The error record: the message under each field's key, or `None` when
      the key is absent. */
  datatype ContentErrors = ContentErrors(title: Option<string>, description: Option<string>)

  const NoErrors := ContentErrors(None, None)

  /** The number of keys present in the record. */
  function EntryCount(e: ContentErrors): nat
  {
    (if e.title.Some? then 1 else 0) + (if e.description.Some? then 1 else 0)
  }

  const TitleRequired := "Title is required"
  const DescriptionRequired := "Description is required"

  /** The errors the form shows: a message for a blank title and one for a
      blank description. */
  function FormErrors(form: ContentForm): ContentErrors
  {
    ContentErrors(if Blank(form.title) then Some(TitleRequired) else None,
                  if Blank(form.description) then Some(DescriptionRequired) else None)
  }

  /** The form passes validation: neither title nor description is blank. */
  predicate Accepted(form: ContentForm)
  {
    !Blank(form.title) && !Blank(form.description)
  }

  /** A form is accepted exactly when neither title nor description is blank. */
  lemma ValidIff(form: ContentForm)
    ensures EntryCount(FormErrors(form)) == 0 <==> Accepted(form)
    ensures Accepted(form) <==>
              (exists i :: 0 <= i < |form.title| && !IsSpace(form.title[i]))
              && (exists i :: 0 <= i < |form.description| && !IsSpace(form.description[i]))
  {
    TrimEmptyIff(form.title);
    TrimEmptyIff(form.description);
  }

  /** The item a valid form creates: a fresh idea in the first stage, with no
      metrics, no publish date and no AI fields, dated `now`. The text fields
      are stored as typed, without trimming. */
  function NewItem(form: ContentForm, newId: string, now: int): (r: ContentItem)
    ensures r.id == newId && r.title == form.title && r.description == form.description
    ensures r.platform == form.platform && r.assignedTo == form.assignedTo
    ensures r.status == Ideation && r.metrics == ZeroMetrics && r.daysInStage == 0
    ensures r.publishDate.None? && r.aiSummary.None? && r.aiTitles.None?
    ensures r.createdDate == now && r.lastUpdated == now
  {
    ContentItem(newId, form.title, form.description, form.platform, Ideation, form.assignedTo,
                now, now, None, ZeroMetrics, None, None, 0)
  }

  /** A new item heads the Ideation column and is not stuck, and the other
      columns are unchanged. */
  lemma NewItemColumns(form: ContentForm, newId: string, now: int, items: seq<ContentItem>)
    ensures ContentByStatus([NewItem(form, newId, now)] + items, Ideation)
            == [NewItem(form, newId, now)] + ContentByStatus(items, Ideation)
    ensures forall s :: s != Ideation ==>
              ContentByStatus([NewItem(form, newId, now)] + items, s) == ContentByStatus(items, s)
    ensures !IsStuck(NewItem(form, newId, now))
  {
    var n := NewItem(form, newId, now);
    assert ([n] + items)[1..] == items;
  }

  class Modal {
    const app: Store
    var form: ContentForm
    var errors: ContentErrors
    /** How many times the dialog has asked its owner to close it. */
    var closeRequests: nat

    constructor (app: Store)
      ensures this.app == app && form == EmptyForm && errors == NoErrors && closeRequests == 0
    {
      this.app := app;
      form := EmptyForm;
      errors := NoErrors;
      closeRequests := 0;
    }

    /** Validation records the form's errors and reports whether there were
        none. */
    method Validate() returns (ok: bool)
      modifies this
      ensures form == old(form) && closeRequests == old(closeRequests)
      ensures errors == FormErrors(form)
      ensures ok <==> Accepted(form)
    {
      var newErrors := NoErrors;
      if Blank(form.title) {
        newErrors := newErrors.(title := Some(TitleRequired));
      }
      if Blank(form.description) {
        newErrors := newErrors.(description := Some(DescriptionRequired));
      }
      errors := newErrors;
      ok := EntryCount(newErrors) == 0;
    }

    /** Submitting a valid form puts the new item in front of the content
        list, resets the form, clears the errors and closes the dialog. An
        invalid form only shows its errors. */
    method HandleSubmit(newId: string, now: int)
      modifies this, app
      ensures app.creators == old(app.creators)
      ensures Accepted(old(form)) ==>
                && app.content == [NewItem(old(form), newId, now)] + old(app.content)
                && form == EmptyForm && errors == NoErrors
                && closeRequests == old(closeRequests) + 1
      ensures !Accepted(old(form)) ==>
                && app.content == old(app.content)
                && form == old(form) && errors == FormErrors(old(form))
                && closeRequests == old(closeRequests)
    {
      var ok := Validate();
      if !ok {
        return;
      }
      var item := NewItem(form, newId, now);
      app.content := [item] + app.content;
      form := EmptyForm;
      errors := NoErrors;
      closeRequests := closeRequests + 1;
    }
  }
}
