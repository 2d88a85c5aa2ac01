/** The recipe edit form: its state, the validating reducer every change
    goes through, and the submit handler that sends only the changed,
    trimmed fields. The draft validator the form uses is a parameter. */
module EditForm {
  import opened Wrappers
  import opened Text

  datatype Field = TitleField | ContentField

  /** One complaint of the draft validator, about one field. */
  datatype FieldIssue = FieldIssue(field: Field, message: string)

  /** The draft validator: no issues means the draft is valid. */
  type Validator = (string, string) -> seq<FieldIssue>

  /** The inline errors per field; `None` is an absent key. */
  datatype Errors = Errors(title: Option<seq<string>>, content: Option<seq<string>>)

  datatype Touched = Touched(title: bool, content: bool)

  datatype FormState = FormState(
    title: string, content: string, errors: Errors, touched: Touched,
    isValid: bool, isSubmitting: bool)

  /** A partial state update: `None` leaves a field as it is. */
  datatype Update = Update(
    title: Option<string>, content: Option<string>, errors: Option<Errors>,
    touched: Option<Touched>, isSubmitting: Option<bool>)

  const NoErrors := Errors(None, None)
  const SaveFailed := "Failed to update recipe. Please try again."

  /** The recipe as it was loaded. */
  datatype RecipeBase = RecipeBase(title: string, content: string)

  /** The first state: the loaded values, no errors, nothing touched, and
      valid without being checked. */
  function InitialState(initial: RecipeBase): FormState {
    FormState(initial.title, initial.content, NoErrors, Touched(false, false), true, false)
  }

  function SubmittingUpdate(on: bool): Update {
    Update(None, None, None, None, Some(on))
  }

  /** `{ ...prev, ...updates }`. */
  function Merge(prev: FormState, u: Update): FormState {
    FormState(
      u.title.GetOr(prev.title), u.content.GetOr(prev.content), u.errors.GetOr(prev.errors),
      u.touched.GetOr(prev.touched), prev.isValid, u.isSubmitting.GetOr(prev.isSubmitting))
  }

  /** The messages of the issues about `field`, in issue order. */
  function MessagesOf(issues: seq<FieldIssue>, field: Field): (r: seq<string>)
    ensures |r| <= |issues|
    ensures r == [] <==> forall i :: 0 <= i < |issues| ==> issues[i].field != field
  {
    if issues == [] then []
    else (if issues[0].field == field then [issues[0].message] else []) + MessagesOf(issues[1..], field)
  }

  /** The inline errors for a failed validation: a field's messages, in
      issue order, only once the field is touched. */
  function ErrorsFor(issues: seq<FieldIssue>, touched: Touched): (r: Errors)
    ensures r.title.Some? <==> touched.title && MessagesOf(issues, TitleField) != []
    ensures r.content.Some? <==> touched.content && MessagesOf(issues, ContentField) != []
    ensures r.title.Some? ==> r.title.value == MessagesOf(issues, TitleField)
    ensures r.content.Some? ==> r.content.value == MessagesOf(issues, ContentField)
  {
    var t := MessagesOf(issues, TitleField);
    var c := MessagesOf(issues, ContentField);
    Errors(if touched.title && t != [] then Some(t) else None,
           if touched.content && c != [] then Some(c) else None)
  }

  /** The reducer behind every state change: merge, then validate the merged
      draft. A valid draft clears every error; an invalid one gets the
      errors of its touched fields. */
  function UpdateFormState(prev: FormState, u: Update, validate: Validator): (r: FormState)
    ensures r.title == u.title.GetOr(prev.title) && r.content == u.content.GetOr(prev.content)
    ensures r.touched == u.touched.GetOr(prev.touched)
    ensures r.isSubmitting == u.isSubmitting.GetOr(prev.isSubmitting)
    ensures r.isValid <==> validate(r.title, r.content) == []
    ensures r.isValid ==> r.errors == NoErrors
    ensures !r.isValid ==> r.errors == ErrorsFor(validate(r.title, r.content), r.touched)
  {
    var next := Merge(prev, u);
    var issues := validate(next.title, next.content);
    if issues == [] then next.(isValid := true, errors := NoErrors)
    else next.(isValid := false, errors := ErrorsFor(issues, next.touched))
  }

  /** No error is ever shown for an untouched field. */
  lemma UntouchedFieldsQuiet(prev: FormState, u: Update, validate: Validator)
    ensures var r := UpdateFormState(prev, u, validate);
            (!r.touched.title ==> r.errors.title.None?) && (!r.touched.content ==> r.errors.content.None?)
  {
  }

  /** The errors an update carries never survive the reducer: the result is
      the same whatever errors the update asked for. */
  lemma ReducerDropsRequestedErrors(prev: FormState, u: Update, e: Errors, validate: Validator)
    ensures UpdateFormState(prev, u.(errors := Some(e)), validate) == UpdateFormState(prev, u.(errors := None), validate)
  {
  }

  /** The save handler's guard, which is also what enables the save button
      (together with no save in progress): a valid state whose fields are
      not blank. */
  predicate CanSubmit(s: FormState) {
    s.isValid && !AllSpace(s.title) && !AllSpace(s.content)
  }

  /** The guard is the source's: both trimmed fields are non-empty. */
  lemma CanSubmitIffTrimmedNonEmpty(s: FormState)
    ensures CanSubmit(s) <==> s.isValid && Trim(s.title) != "" && Trim(s.content) != ""
  {
    TrimEmptyIffAllSpace(s.title);
    TrimEmptyIffAllSpace(s.content);
  }

  /** The fields sent on save: each trimmed field that differs from the
      loaded value. */
  datatype Changes = Changes(title: Option<string>, content: Option<string>)

  function ChangedFields(s: FormState, initial: RecipeBase): (r: Changes)
    ensures r.title.Some? <==> Trim(s.title) != initial.title
    ensures r.content.Some? <==> Trim(s.content) != initial.content
    ensures r.title.Some? ==> r.title.value == Trim(s.title)
    ensures r.content.Some? ==> r.content.value == Trim(s.content)
  {
    var t := Trim(s.title);
    var c := Trim(s.content);
    Changes(if t != initial.title then Some(t) else None, if c != initial.content then Some(c) else None)
  }

  /** A partial update applied to the stored recipe. */
  function ApplyChanges(r: RecipeBase, c: Changes): RecipeBase {
    RecipeBase(c.title.GetOr(r.title), c.content.GetOr(r.content))
  }

  /** The changes bring the stored recipe to exactly the trimmed draft, and
      no change is sent for a field already equal to it. */
  lemma ChangesReachDraft(s: FormState, initial: RecipeBase)
    ensures ApplyChanges(initial, ChangedFields(s, initial)) == RecipeBase(Trim(s.title), Trim(s.content))
    ensures ChangedFields(s, initial) == Changes(None, None) <==>
              Trim(s.title) == initial.title && Trim(s.content) == initial.content
  {
  }

  /** A loaded title that starts with whitespace counts as changed even
      when the user never edits it. */
  lemma PaddedTitleAlwaysSent(s: FormState, initial: RecipeBase)
    requires s.title == initial.title && initial.title != [] && IsSpace(initial.title[0])
    ensures ChangedFields(s, initial).title == Some(Trim(initial.title))
  {
    TrimIsCore(initial.title);
  }

  /** The failure handling as written: it asks the reducer for the save
      error, and the reducer replaces it with the validation result, so the
      error never appears unless the validator itself produces it. */
  function FailedSaveAsWritten(s: FormState, validate: Validator): (r: FormState)
    ensures r.errors.title == Some([SaveFailed]) ==> MessagesOf(validate(s.title, s.content), TitleField) == [SaveFailed]
    ensures validate(s.title, s.content) == [] ==> r.errors == NoErrors
    ensures !r.isSubmitting && r.title == s.title && r.content == s.content && r.touched == s.touched
  {
    UpdateFormState(s, Update(None, None, Some(Errors(Some([SaveFailed]), None)), None, Some(false)), validate)
  }

  /** A form that was valid when the save failed shows no error at all. */
  lemma SaveFailureNotShownAsWritten(s: FormState, validate: Validator)
    requires validate(s.title, s.content) == []
    ensures FailedSaveAsWritten(s, validate).errors == NoErrors
    ensures FailedSaveAsWritten(s, validate).errors.title != Some([SaveFailed])
  {
  }

  /** The failure handling as intended: the save error is set directly,
      under the title, and the draft keeps its values and validity. */
  function FailedSave(s: FormState): (r: FormState)
    ensures r.errors.title == Some([SaveFailed]) && r.errors.content.None?
    ensures !r.isSubmitting
    ensures r.title == s.title && r.content == s.content && r.touched == s.touched && r.isValid == s.isValid
  {
    s.(isSubmitting := false, errors := Errors(Some([SaveFailed]), None))
  }

  datatype Toast = InfoToast(message: string) | SuccessToast(message: string) | ErrorToast(message: string)

  const NoChangesMessage := "No changes to save"
  const UpdatedMessage := "Recipe updated successfully"
  const UpdateFailedMessage := "Failed to update recipe"

  /** The detail page of a recipe. */
  function DetailPath(recipeId: string): string {
    "/recipes/" + recipeId
  }

  /** What one save does: the new state, the update request sent (if any),
      the toast shown (if any) and the navigation (if any). */
  datatype SubmitEffect = SubmitEffect(state: FormState, sent: Option<Changes>, toast: Option<Toast>, navigate: Option<string>)

  /** One save of the form in state `s`, where `saveSucceeds` is how the
      update request ends. */
  function Submit(s: FormState, initial: RecipeBase, validate: Validator, recipeId: string, saveSucceeds: bool)
    : SubmitEffect
  {
    if !CanSubmit(s) then SubmitEffect(s, None, None, None)
    else
      var submitting := UpdateFormState(s, SubmittingUpdate(true), validate);
      var changes := ChangedFields(s, initial);
      if changes == Changes(None, None) then
        SubmitEffect(UpdateFormState(submitting, SubmittingUpdate(false), validate), None, Some(InfoToast(NoChangesMessage)), None)
      else if saveSucceeds then
        SubmitEffect(submitting, Some(changes), Some(SuccessToast(UpdatedMessage)), Some(DetailPath(recipeId)))
      else
        SubmitEffect(FailedSave(submitting), Some(changes), Some(ErrorToast(UpdateFailedMessage)), None)
  }

  /** What a save amounts to: a save the guard stops changes nothing; a
      request carries exactly the changed fields; with nothing changed the
      form is re-enabled with an information toast; the page navigates
      exactly after a successful request; a failed one re-enables the form
      with the error toast and the save error on the title. */
  lemma SubmitEffects(s: FormState, initial: RecipeBase, validate: Validator, recipeId: string, saveSucceeds: bool)
    ensures var r := Submit(s, initial, validate, recipeId, saveSucceeds);
            && (!CanSubmit(s) ==> r == SubmitEffect(s, None, None, None))
            && (r.sent.Some? ==> r.sent.value == ChangedFields(s, initial))
            && (CanSubmit(s) && r.sent.None? ==> r.toast == Some(InfoToast(NoChangesMessage)) && !r.state.isSubmitting)
            && (r.navigate.Some? <==> r.sent.Some? && saveSucceeds)
            && (r.navigate.Some? ==> r.navigate.value == DetailPath(recipeId) && r.toast == Some(SuccessToast(UpdatedMessage)))
            && (r.sent.Some? && !saveSucceeds ==>
                  && r.toast == Some(ErrorToast(UpdateFailedMessage))
                  && !r.state.isSubmitting && r.state.errors.title == Some([SaveFailed]))
            && r.state.title == s.title && r.state.content == s.content
  {
  }

  /** A save that the guard stops does nothing at all; one that passes it
      sends a request exactly when a trimmed field differs from the loaded
      recipe, and that request carries exactly the differing fields. */
  lemma SubmitSendsOnlyChanges(s: FormState, initial: RecipeBase, validate: Validator, recipeId: string, ok: bool)
    ensures var e := Submit(s, initial, validate, recipeId, ok);
            && (!CanSubmit(s) ==> e == SubmitEffect(s, None, None, None))
            && (e.sent.Some? <==> CanSubmit(s) && (Trim(s.title) != initial.title || Trim(s.content) != initial.content))
            && (e.sent.Some? ==> ApplyChanges(initial, e.sent.value) == RecipeBase(Trim(s.title), Trim(s.content)))
  {
    ChangesReachDraft(s, initial);
  }

  /** A successful save navigates to the recipe's page; a failed one stays,
      re-enables the form and shows the save error under the title. */
  lemma SubmitOutcomes(s: FormState, initial: RecipeBase, validate: Validator, recipeId: string, ok: bool)
    requires Submit(s, initial, validate, recipeId, ok).sent.Some?
    ensures var e := Submit(s, initial, validate, recipeId, ok);
            && (ok ==> e.navigate == Some(DetailPath(recipeId)) && e.toast == Some(SuccessToast(UpdatedMessage)))
            && (!ok ==> e.navigate.None? && !e.state.isSubmitting && e.state.errors.title == Some([SaveFailed]))
  {
  }

  /** The mounted form of one recipe. `sent` lists the update requests made,
      `toasts` the notifications shown and `location` where the page has
      navigated, if anywhere. */
  class RecipeEditForm {
    const recipeId: string
    const initial: RecipeBase
    const validate: Validator
    var state: FormState
    var sent: seq<Changes>
    var toasts: seq<Toast>
    var location: Option<string>

    constructor(recipeId: string, initial: RecipeBase, validate: Validator)
      ensures this.recipeId == recipeId && this.initial == initial && this.validate == validate
      ensures state == InitialState(initial)
      ensures sent == [] && toasts == [] && location.None?
    {
      this.recipeId := recipeId;
      this.initial := initial;
      this.validate := validate;
      state := InitialState(initial);
      sent := [];
      toasts := [];
      location := None;
    }

    /** Typing in the title field: it becomes touched. */
    method ChangeTitle(value: string)
      modifies this
      ensures state == UpdateFormState(old(state), Update(Some(value), None, None, Some(old(state).touched.(title := true)), None), validate)
      ensures sent == old(sent) && toasts == old(toasts) && location == old(location)
    {
      state := UpdateFormState(state, Update(Some(value), None, None, Some(state.touched.(title := true)), None), validate);
    }

    /** Typing in the content field: it becomes touched. */
    method ChangeContent(value: string)
      modifies this
      ensures state == UpdateFormState(old(state), Update(None, Some(value), None, Some(old(state).touched.(content := true)), None), validate)
      ensures sent == old(sent) && toasts == old(toasts) && location == old(location)
    {
      state := UpdateFormState(state, Update(None, Some(value), None, Some(state.touched.(content := true)), None), validate);
    }

    /** Saving, where `saveSucceeds` is how the update request ends. */
    method HandleSubmit(saveSucceeds: bool)
      modifies this
      ensures var e := Submit(old(state), initial, validate, recipeId, saveSucceeds);
              && state == e.state
              && sent == old(sent) + (if e.sent.Some? then [e.sent.value] else [])
              && toasts == old(toasts) + (if e.toast.Some? then [e.toast.value] else [])
              && location == (if e.navigate.Some? then e.navigate else old(location))
    {
      var s := state;
      ghost var e := Submit(s, initial, validate, recipeId, saveSucceeds);
      if !CanSubmit(s) {
        return;
      }
      var changes := ChangedFields(s, initial);
      var submitting := UpdateFormState(s, SubmittingUpdate(true), validate);
      state := submitting;
      if changes == Changes(None, None) {
        toasts := toasts + [InfoToast(NoChangesMessage)];
        state := UpdateFormState(state, SubmittingUpdate(false), validate);
        assert e == SubmitEffect(state, None, Some(InfoToast(NoChangesMessage)), None);
        return;
      }
      sent := sent + [changes];
      if saveSucceeds {
        toasts := toasts + [SuccessToast(UpdatedMessage)];
        location := Some(DetailPath(recipeId));
        assert e == SubmitEffect(submitting, Some(changes), Some(SuccessToast(UpdatedMessage)), Some(DetailPath(recipeId)));
      } else {
        state := FailedSave(state);
        toasts := toasts + [ErrorToast(UpdateFailedMessage)];
        assert e == SubmitEffect(state, Some(changes), Some(ErrorToast(UpdateFailedMessage)), None);
      }
    }

    /** Leaving without saving. */
    method Cancel()
      modifies this
      ensures location == Some(DetailPath(recipeId))
      ensures state == old(state) && sent == old(sent) && toasts == old(toasts)
    {
      location := Some(DetailPath(recipeId));
    }
  }
}
