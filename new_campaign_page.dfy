/**
 * The "New Campaign" form (hackuta-frontend/src/app/dashboard/new-campaign/page.tsx): the
 * length checks on the trimmed name and description, the character counter, the inline
 * error conditions, the submit gate, the request payload, and what a submission does to the
 * form and to the campaign store. The backend call is a parameter: its reply, or `None` when
 * it throws.
 */
module NewCampaignPage {
  import opened Wrappers
  import opened Text
  import opened CampaignContext

  // ----- validation -----

  /** JavaScript's `s.trim().length`. */
  function TrimmedLength(s: string): nat {
    JsLength(JsTrim(s))
  }

  /** `nameError`: the trimmed name is shorter than 3 or longer than 50 code units. */
  predicate NameError(name: string) {
    TrimmedLength(name) < 3 || TrimmedLength(name) > 50
  }

  /** `descriptionError`: the trimmed description is shorter than 50 code units; there is no upper bound. */
  predicate DescriptionError(description: string) {
    TrimmedLength(description) < 50
  }

  /** `isInvalid`. */
  predicate IsInvalid(name: string, description: string) {
    NameError(name) || DescriptionError(description)
  }

  /** `descriptionCount`: the untrimmed length. */
  function DescriptionCount(description: string): nat {
    JsLength(description)
  }

  /** `descriptionHelper`: the count followed by ` characters`, whichever branch produces it. */
  function DescriptionHelper(description: string): (r: string)
    ensures r == NatToString(DescriptionCount(description)) + " characters"
  {
    if DescriptionCount(description) == 0 then "0 characters"
    else NatToString(DescriptionCount(description)) + " characters"
  }

  /** The inline name message shows only for a non-empty invalid name. */
  predicate ShowsNameError(name: string) {
    JsLength(name) > 0 && NameError(name)
  }

  /** The inline description message shows only for a non-empty invalid description. */
  predicate ShowsDescriptionError(description: string) {
    DescriptionCount(description) > 0 && DescriptionError(description)
  }

  /** The submit button's `disabled`. */
  predicate SubmitDisabled(name: string, description: string, isCreating: bool) {
    IsInvalid(name, description) || isCreating
  }

  lemma JsTrimAllSpace(s: string)
    requires forall i :: 0 <= i < |s| ==> IsJsSpace(s[i])
    ensures JsTrim(s) == [] && TrimmedLength(s) == 0
  {
  }

  /**
   * A name or description made only of whitespace is invalid, and the empty form shows no
   * inline message although it cannot be submitted.
   */
  lemma BlankFieldsInvalid(name: string, description: string)
    requires forall i :: 0 <= i < |name| ==> IsJsSpace(name[i])
    requires forall i :: 0 <= i < |description| ==> IsJsSpace(description[i])
    ensures NameError(name) && DescriptionError(description) && SubmitDisabled(name, description, false)
    ensures name == "" ==> !ShowsNameError(name)
    ensures description == "" ==> !ShowsDescriptionError(description)
  {
    JsTrimAllSpace(name);
    JsTrimAllSpace(description);
  }

  /** A message is shown only for a field that fails its check. */
  lemma ShownErrorsBlockSubmit(name: string, description: string, isCreating: bool)
    requires ShowsNameError(name) || ShowsDescriptionError(description)
    ensures IsInvalid(name, description) && SubmitDisabled(name, description, isCreating)
  {
  }

  /**
   * Lengths count UTF-16 code units: two emoji outside the Basic Multilingual Plane make a
   * name of length 4, which passes the check that three letters would need.
   */
  lemma AstralNameLength(c: char)
    requires c as int >= 0x1_0000
    ensures TrimmedLength([c, c]) == 4 && !NameError([c, c])
  {
    var s := [c, c];
    assert !IsJsSpace(c);
    assert IsStripped(s, IsJsSpace);
    StripStripped(s, IsJsSpace);
    assert s[1..] == [c];
    assert [c][1..] == [];
    assert Utf16(s) == CharUnits(c) + (CharUnits(c) + []);
  }

  // ----- the request -----

  /** The three optional answers as typed. */
  datatype ContextInput = ContextInput(emotion: string, success: string, inspiration: string)

  /** The body sent to `createCampaign`. */
  datatype Payload = Payload(
    name: string,
    description: string,
    emotion: Option<string>,
    success: Option<string>,
    inspiration: Option<string>)

  /** `answer || undefined`: the empty string becomes absent. */
  function OrUndefined(answer: string): Option<string> {
    if answer == "" then None else Some(answer)
  }

  /** The payload built from the form state. */
  function BuildPayload(name: string, description: string, context: ContextInput): Payload {
    Payload(JsTrim(name), JsTrim(description),
      OrUndefined(context.emotion), OrUndefined(context.success), OrUndefined(context.inspiration))
  }

  /**
   * The payload carries the name and description with surrounding whitespace removed, within
   * the checked bounds when the form is valid; an answer is absent exactly when it was left
   * empty and is otherwise sent unchanged.
   */
  lemma PayloadFacts(name: string, description: string, context: ContextInput)
    ensures var p := BuildPayload(name, description, context);
      IsStripped(p.name, IsJsSpace) && IsStripped(p.description, IsJsSpace) &&
      |p.name| <= |name| && |p.description| <= |description| &&
      (!IsInvalid(name, description) ==> 3 <= JsLength(p.name) <= 50 && JsLength(p.description) >= 50) &&
      (p.emotion.None? <==> context.emotion == "") && (p.emotion.Some? ==> p.emotion.value == context.emotion) &&
      (p.success.None? <==> context.success == "") && (p.success.Some? ==> p.success.value == context.success) &&
      (p.inspiration.None? <==> context.inspiration == "") && (p.inspiration.Some? ==> p.inspiration.value == context.inspiration)
  {
    StripIsStripped(name, IsJsSpace);
    StripIsStripped(description, IsJsSpace);
  }

  /** The fields of the backend's reply that the page reads; `id` is already `String(created.id)`. */
  datatype Created = Created(
    id: string,
    name: string,
    description: string,
    emotion: Option<string>,
    success: Option<string>,
    inspiration: Option<string>,
    createdAt: string)

  /** The campaign handed to `addCampaign`: no objective, audience, platforms, insights or ads. */
  function CampaignOf(created: Created): (c: Campaign)
    ensures c.id == created.id && c.name == created.name && c.description == created.description
    ensures c.ads == [] && DistinctKeys(c.ads, AdId)
    ensures c.contextAnswers == Some(ContextAnswers(created.emotion, created.success, created.inspiration))
  {
    Campaign(created.id, created.name, created.description, created.createdAt, None, None, None,
      Some(ContextAnswers(created.emotion, created.success, created.inspiration)), None, [])
  }

  const FailureMessage := "Failed to create campaign. Please try again."

  /** The page's form state and the store it adds to. */
  class NewCampaignForm {
    var name: string
    var description: string
    var context: ContextInput
    var isCreating: bool
    var error: Option<string>
    const store: CampaignStore

    constructor(store: CampaignStore)
      ensures this.store == store
      ensures name == "" && description == "" && context == ContextInput("", "", "")
      ensures !isCreating && error.None?
    {
      this.store := store;
      name := "";
      description := "";
      context := ContextInput("", "", "");
      isCreating := false;
      error := None;
    }

    /**
     * `handleSubmit`. `reply` is what `createCampaign` resolves to, `None` when it throws.
     * An invalid form changes nothing and sends nothing. Otherwise the payload is sent; on
     * success the created campaign goes to the store and the error stays cleared, on failure
     * the store is untouched and the failure message is set; either way `isCreating` ends false.
     */
    method HandleSubmit(reply: Option<Created>) returns (sent: Option<Payload>)
      modifies this, store
      ensures name == old(name) && description == old(description) && context == old(context)
      ensures IsInvalid(name, description) ==>
        sent.None? && isCreating == old(isCreating) && error == old(error) && store.campaigns == old(store.campaigns)
      ensures !IsInvalid(name, description) ==> sent == Some(BuildPayload(name, description, context)) && !isCreating
      ensures !IsInvalid(name, description) && reply.Some? ==>
        error.None? && store.campaigns == AfterAddCampaign(old(store.campaigns), CampaignOf(reply.value))
      ensures !IsInvalid(name, description) && reply.None? ==>
        error == Some(FailureMessage) && store.campaigns == old(store.campaigns)
      ensures old(StoreInvariant(store.campaigns)) ==> StoreInvariant(store.campaigns)
    {
      if IsInvalid(name, description) {
        return None;
      }
      sent := Submit(reply);
    }

    /** The body of `handleSubmit` past the validity gate. */
    method Submit(reply: Option<Created>) returns (sent: Option<Payload>)
      modifies this, store
      ensures name == old(name) && description == old(description) && context == old(context)
      ensures sent == Some(BuildPayload(name, description, context)) && !isCreating
      ensures reply.Some? ==> error.None? && store.campaigns == AfterAddCampaign(old(store.campaigns), CampaignOf(reply.value))
      ensures reply.None? ==> error == Some(FailureMessage) && store.campaigns == old(store.campaigns)
      ensures old(StoreInvariant(store.campaigns)) ==> StoreInvariant(store.campaigns)
    {
      Begin();
      sent := Some(BuildPayload(name, description, context));
      Settle(reply);
    }

    /** The start of a submission: the error is cleared and the spinner shown. */
    method Begin()
      modifies this
      ensures name == old(name) && description == old(description) && context == old(context)
      ensures error.None? && isCreating
    {
      error := None;
      isCreating := true;
    }

    /**
     * What the reply of `createCampaign` leads to: the store update, or the failure message;
     * then the `finally` clears `isCreating`.
     */
    method Settle(reply: Option<Created>)
      modifies this, store
      ensures name == old(name) && description == old(description) && context == old(context)
      ensures !isCreating
      ensures reply.Some? ==> error == old(error) && store.campaigns == AfterAddCampaign(old(store.campaigns), CampaignOf(reply.value))
      ensures reply.None? ==> error == Some(FailureMessage) && store.campaigns == old(store.campaigns)
      ensures old(StoreInvariant(store.campaigns)) ==> StoreInvariant(store.campaigns)
    {
      match reply {
        case Some(created) =>
          AddCreated(created);
        case None =>
          error := Some(FailureMessage);
      }
      isCreating := false;
    }

    /** The success path: `addCampaign` with the campaign built from the reply. */
    method AddCreated(created: Created)
      modifies store
      ensures store.campaigns == AfterAddCampaign(old(store.campaigns), CampaignOf(created))
      ensures old(StoreInvariant(store.campaigns)) ==> StoreInvariant(store.campaigns)
    {
      var c := CampaignOf(created);
      store.AddCampaign(c);
    }

  }
}
