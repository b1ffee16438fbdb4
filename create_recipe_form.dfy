/**
 * The create-recipe form: its field state, the photo filter, the `;`-separated
 * ingredients input, and the submit sequence (validation, the two POSTs, the
 * reset on success, the error message on failure).
 */
module CreateRecipeForm {
  import opened Wrappers
  import opened Strings
  import opened RecipeTypes
  import CreateRecipe

  /** The messages the form can show. */
  datatype Message = TitleRequired | PhotoRequired | CreateFailed | NotAnImage | TooLarge

  /** The text shown for each message. */
  function Text(m: Message): string {
    match m
    case TitleRequired => "O título é obrigatório"
    case PhotoRequired => "Por favor, selecione uma foto"
    case CreateFailed => "Erro ao criar receita. Tente novamente."
    case NotAnImage => "Por favor, selecione apenas arquivos de imagem"
    case TooLarge => "A imagem deve ter no máximo 5MB"
  }

  /** 5 MB, the largest accepted photo in bytes. */
  const MaxPhotoSize := 5 * 1024 * 1024

  const IngredientSeparator := ';'

  /**
   * A snapshot of the form: its eight state variables, the requests it has sent
   * and how many times it has called `onCreate`.
   */
  datatype FormState = FormState(
    title: string,
    description: string,
    photo: Option<File>,
    photoPreview: Option<string>,
    ingredients: seq<string>,
    instructions: string,
    isSubmitting: bool,
    error: Option<Message>,
    sent: seq<Request>,
    onCreateCalls: nat)

  /** The state of a freshly mounted form. */
  function InitialForm(): FormState {
    FormState("", "", None, None, [], "", false, None, [], 0)
  }

  /** The photo filter of `handlePhotoChange`: an `image/` type of at most 5 MB. */
  predicate AcceptsPhoto(f: File) {
    StartsWith(f.mimeType, "image/") && f.size <= MaxPhotoSize
  }

  /**
   * `handlePhotoChange`: no file clears the photo; a rejected file sets the
   * matching message and keeps the photo chosen before; an accepted one
   * becomes the photo and clears the message.
   */
  function AfterPhotoChange(s: FormState, file: Option<File>): (r: FormState)
    ensures file.None? ==> r == s.(photo := None, photoPreview := None)
    ensures file.Some? && AcceptsPhoto(file.value) ==> r == s.(photo := file, error := None)
    ensures file.Some? && !StartsWith(file.value.mimeType, "image/") ==> r == s.(error := Some(NotAnImage))
    ensures file.Some? && StartsWith(file.value.mimeType, "image/") && file.value.size > MaxPhotoSize ==>
      r == s.(error := Some(TooLarge))
  {
    match file
    case None => s.(photo := None, photoPreview := None)
    case Some(f) =>
      if !StartsWith(f.mimeType, "image/") then s.(error := Some(NotAnImage))
      else if f.size > MaxPhotoSize then s.(error := Some(TooLarge))
      else s.(photo := file, error := None)
  }

  /** The photo after a change is the new file exactly when it passes the filter. */
  lemma PhotoChangeFilter(s: FormState, f: File)
    ensures AfterPhotoChange(s, Some(f)).photo == (if AcceptsPhoto(f) then Some(f) else s.photo)
  {
  }

  /** The ingredients input's displayed value, `ingredients.join(';')`. */
  function IngredientsText(s: FormState): string {
    Join(s.ingredients, IngredientSeparator)
  }

  /** `handleIngredientsChange`: `value.split(';')`. */
  function AfterIngredientsChange(s: FormState, value: string): (r: FormState)
    ensures |r.ingredients| >= 1
    ensures r == s.(ingredients := r.ingredients)
  {
    s.(ingredients := Split(value, IngredientSeparator))
  }

  /** The input shows exactly what was typed into it. */
  lemma IngredientsInputRoundTrip(s: FormState, value: string)
    ensures IngredientsText(AfterIngredientsChange(s, value)) == value
  {
    JoinSplit(value, IngredientSeparator);
  }

  /** Typing the displayed text back in reproduces the list, once it has come from the input. */
  lemma IngredientsListRoundTrip(s: FormState, value: string)
    ensures var t := AfterIngredientsChange(s, value);
      AfterIngredientsChange(t, IngredientsText(t)).ingredients == t.ingredients
  {
    var t := AfterIngredientsChange(s, value);
    SplitJoin(t.ingredients, IngredientSeparator);
  }

  /** Clearing the input gives `['']`, not the initial `[]`. */
  lemma ClearedIngredientsInput(s: FormState)
    ensures AfterIngredientsChange(s, "").ingredients == [""] != InitialForm().ingredients
  {
  }

  /** The metadata POST, whose body is the four content fields. */
  function CreateRequest(s: FormState): Request {
    PostRecipe(RecipeContent(s.title, s.description, s.ingredients, s.instructions))
  }

  /** Whether a submit gets through validation and both calls. */
  predicate SubmitSucceeds(s: FormState, created: Outcome<Recipe>, uploaded: Outcome<PhotoResponse>) {
    Trim(s.title) != "" && s.photo.Some? && created.Success? && uploaded.Success?
  }

  /** A submit that ends in the `catch`: message `msg`, sending finished, fields kept. */
  function Failed(s: FormState, sent: seq<Request>, msg: Message): FormState {
    s.(sent := sent, error := Some(msg), isSubmitting := false)
  }

  /** A submit that got through both calls: fields emptied, `onCreate` called once. */
  function Succeeded(s: FormState, sent: seq<Request>): FormState {
    FormState("", "", None, None, [], "", false, s.error, sent, s.onCreateCalls + 1)
  }

  /**
   * The two POSTs of `handleSubmit` and what follows them, once the fields
   * have passed validation: the `try` body, its `catch` and its `finally`.
   */
  function AfterCalls(s: FormState, created: Outcome<Recipe>, uploaded: Outcome<PhotoResponse>): FormState
    requires s.photo.Some?
  {
    var posted := s.(sent := s.sent + [CreateRequest(s)]);
    match created
    case Failure => Failed(posted, posted.sent, CreateFailed)
    case Success(recipe) => AfterUpload(posted, recipe.id, uploaded)
  }

  /** The photo POST to recipe `id` and what follows it: the reset and `onCreate`, or the message. */
  function AfterUpload(s: FormState, id: string, uploaded: Outcome<PhotoResponse>): FormState
    requires s.photo.Some?
  {
    var sent := s.sent + [PostPhoto(id, s.photo.value)];
    match uploaded
    case Failure => Failed(s, sent, CreateFailed)
    case Success(_) => Succeeded(s, sent)
  }

  /**
   * `handleSubmit`, given the outcomes of its two calls: the state after the
   * whole try/catch/finally has run.
   */
  function AfterSubmit(s: FormState, created: Outcome<Recipe>, uploaded: Outcome<PhotoResponse>): FormState {
    if Trim(s.title) == "" then Failed(s, s.sent, TitleRequired)
    else if s.photo.None? then Failed(s, s.sent, PhotoRequired)
    else AfterCalls(s.(error := None, isSubmitting := true), created, uploaded)
  }

  /**
   * After validation: `isSubmitting` ends false, one or two requests are
   * appended, and `onCreate` is called and no message set exactly when both
   * calls succeed.
   */
  lemma AfterCallsOutcome(t: FormState, created: Outcome<Recipe>, uploaded: Outcome<PhotoResponse>)
    requires t.photo.Some? && t.error == None
    ensures var r := AfterCalls(t, created, uploaded);
      !r.isSubmitting &&
      (created.Success? && uploaded.Success? ==> r.onCreateCalls == t.onCreateCalls + 1 && r.error == None) &&
      (!(created.Success? && uploaded.Success?) ==> r.onCreateCalls == t.onCreateCalls && r.error.Some?) &&
      |t.sent| < |r.sent| <= |t.sent| + 2 && r.sent[..|t.sent|] == t.sent
  {
    var r := AfterCalls(t, created, uploaded);
    var posted := t.(sent := t.sent + [CreateRequest(t)]);
    assert posted.sent[..|t.sent|] == t.sent;
    if created.Failure? {
      assert r == Failed(posted, posted.sent, CreateFailed);
    } else {
      var both := posted.sent + [PostPhoto(created.payload.id, t.photo.value)];
      assert both[..|t.sent|] == t.sent;
      if uploaded.Failure? {
        assert r == Failed(posted, both, CreateFailed);
      } else {
        assert r == Succeeded(posted, both);
      }
    }
  }

  /**
   * Every path ends with `isSubmitting` false; `onCreate` is called and the
   * message cleared exactly on success; at most two requests are appended.
   */
  lemma SubmitOutcome(s: FormState, created: Outcome<Recipe>, uploaded: Outcome<PhotoResponse>)
    ensures var r := AfterSubmit(s, created, uploaded);
      !r.isSubmitting &&
      (SubmitSucceeds(s, created, uploaded) ==> r.onCreateCalls == s.onCreateCalls + 1) &&
      (!SubmitSucceeds(s, created, uploaded) ==> r.onCreateCalls == s.onCreateCalls) &&
      (SubmitSucceeds(s, created, uploaded) <==> r.error == None) &&
      |s.sent| <= |r.sent| <= |s.sent| + 2 && r.sent[..|s.sent|] == s.sent
  {
    var r := AfterSubmit(s, created, uploaded);
    if Trim(s.title) == "" {
      assert r == Failed(s, s.sent, TitleRequired);
    } else if s.photo.None? {
      assert r == Failed(s, s.sent, PhotoRequired);
    } else {
      AfterCallsOutcome(s.(error := None, isSubmitting := true), created, uploaded);
    }
  }

  /** A title of white space only is refused with the title message, before the photo is looked at. */
  lemma BlankTitleRejected(s: FormState, created: Outcome<Recipe>, uploaded: Outcome<PhotoResponse>)
    requires IsBlank(s.title)
    ensures AfterSubmit(s, created, uploaded) == s.(error := Some(TitleRequired), isSubmitting := false)
  {
    TrimEmptyIffBlank(s.title);
  }

  /** A missing photo is refused with the photo message; nothing is sent. */
  lemma MissingPhotoRejected(s: FormState, created: Outcome<Recipe>, uploaded: Outcome<PhotoResponse>)
    requires !IsBlank(s.title) && s.photo.None?
    ensures AfterSubmit(s, created, uploaded) == s.(error := Some(PhotoRequired), isSubmitting := false)
  {
    TrimEmptyIffBlank(s.title);
  }

  /**
   * A successful submit sends the metadata POST, then the photo POST to the
   * returned id, empties every field and calls `onCreate` once.
   */
  lemma SuccessfulSubmit(s: FormState, recipe: Recipe, photoData: PhotoResponse)
    requires !IsBlank(s.title) && s.photo.Some?
    ensures var r := AfterSubmit(s, Success(recipe), Success(photoData));
      r.sent == s.sent + [CreateRequest(s), PostPhoto(recipe.id, s.photo.value)] &&
      r == InitialForm().(sent := r.sent, onCreateCalls := s.onCreateCalls + 1)
  {
    TrimEmptyIffBlank(s.title);
    assert CreateRequest(s.(error := None, isSubmitting := true)) == CreateRequest(s);
  }

  /** Any failure leaves every field as it was, sets a message and does not call `onCreate`. */
  lemma FailedSubmitKeepsFields(s: FormState, created: Outcome<Recipe>, uploaded: Outcome<PhotoResponse>)
    requires !SubmitSucceeds(s, created, uploaded)
    ensures var r := AfterSubmit(s, created, uploaded);
      r.error.Some? && r.onCreateCalls == s.onCreateCalls &&
      r == s.(sent := r.sent, error := r.error, isSubmitting := false)
  {
    var r := AfterSubmit(s, created, uploaded);
    if Trim(s.title) == "" {
      assert r == Failed(s, s.sent, TitleRequired);
    } else if s.photo.None? {
      assert r == Failed(s, s.sent, PhotoRequired);
    } else {
      var t := s.(error := None, isSubmitting := true);
      var posted := t.(sent := s.sent + [CreateRequest(t)]);
      if created.Failure? {
        assert r == Failed(posted, posted.sent, CreateFailed);
      } else {
        assert uploaded.Failure?;
        assert r == Failed(posted, posted.sent + [PostPhoto(created.payload.id, s.photo.value)], CreateFailed);
      }
    }
  }

  /** The form sends the same requests as `createRecipe` would for its fields and chosen photo. */
  lemma SubmitSendsWhatCreateRecipeSends(s: FormState, created: Outcome<Recipe>, uploaded: Outcome<PhotoResponse>)
    requires !IsBlank(s.title) && s.photo.Some?
    ensures var body := CreateRecipe.CreateRecipeBody(s.title, s.description, s.photo, s.ingredients, s.instructions);
      var c := CreateRecipe.Create(body, created, uploaded);
      AfterSubmit(s, created, uploaded).sent == s.sent + c.requests &&
      (AfterSubmit(s, created, uploaded).error == None <==> c.result.Success?)
  {
    TrimEmptyIffBlank(s.title);
    var t := s.(error := None, isSubmitting := true);
    var body := CreateRecipe.CreateRecipeBody(s.title, s.description, s.photo, s.ingredients, s.instructions);
    var r := AfterCalls(t, created, uploaded);
    assert AfterSubmit(s, created, uploaded) == r;
    assert CreateRequest(t) == PostRecipe(CreateRecipe.ContentOf(body));
    AfterCallsOutcome(t, created, uploaded);
    if created.Failure? {
      assert r.sent == s.sent + [CreateRequest(t)];
    } else {
      assert r.sent == s.sent + [CreateRequest(t), PostPhoto(created.payload.id, s.photo.value)];
    }
  }

  /** The form component. Its photo preview (read asynchronously) and the file input's DOM value are not modelled. */
  class Form {
    var title: string
    var description: string
    var photo: Option<File>
    var photoPreview: Option<string>
    var ingredients: seq<string>
    var instructions: string
    var isSubmitting: bool
    var error: Option<Message>
    var sent: seq<Request>
    var onCreateCalls: nat

    function State(): FormState
      reads this
    {
      FormState(title, description, photo, photoPreview, ingredients, instructions,
                isSubmitting, error, sent, onCreateCalls)
    }

    constructor ()
      ensures State() == InitialForm()
    {
      title, description, photo, photoPreview := "", "", None, None;
      ingredients, instructions, isSubmitting, error := [], "", false, None;
      sent, onCreateCalls := [], 0;
    }

    method HandleTitleChange(value: string)
      modifies this
      ensures State() == old(State()).(title := value)
    {
      title := value;
    }

    method HandleDescriptionChange(value: string)
      modifies this
      ensures State() == old(State()).(description := value)
    {
      description := value;
    }

    method HandleInstructionsChange(value: string)
      modifies this
      ensures State() == old(State()).(instructions := value)
    {
      instructions := value;
    }

    method HandleIngredientsChange(value: string)
      modifies this
      ensures State() == AfterIngredientsChange(old(State()), value)
    {
      ingredients := Split(value, IngredientSeparator);
    }

    method HandlePhotoChange(file: Option<File>)
      modifies this
      ensures State() == AfterPhotoChange(old(State()), file)
    {
      if file.Some? {
        var f := file.value;
        if !StartsWith(f.mimeType, "image/") {
          error := Some(NotAnImage);
          return;
        }
        if f.size > MaxPhotoSize {
          error := Some(TooLarge);
          return;
        }
        photo := file;
        error := None;
      } else {
        photo := None;
        photoPreview := None;
      }
    }

    /** `handleSubmit`, with the outcomes of the two calls as inputs. */
    method HandleSubmit(created: Outcome<Recipe>, uploaded: Outcome<PhotoResponse>)
      modifies this
      ensures State() == AfterSubmit(old(State()), created, uploaded)
    {
      ghost var s0 := State();
      error := None;
      isSubmitting := true;
      ghost var s1 := State();
      assert s1 == s0.(error := None, isSubmitting := true);
      if Trim(title) == "" {
        error := Some(TitleRequired);
        isSubmitting := false;
        return;
      }
      if photo.None? {
        error := Some(PhotoRequired);
        isSubmitting := false;
        return;
      }
      assert AfterSubmit(s0, created, uploaded) == AfterCalls(s1, created, uploaded);
      SendRecipe(created, uploaded);
    }

    /**
     * The part of `handleSubmit` after validation: the metadata POST, then the
     * message or the photo step. The source has no such function; this split of
     * `handleSubmit` only keeps each proof small.
     */
    method SendRecipe(created: Outcome<Recipe>, uploaded: Outcome<PhotoResponse>)
      requires photo.Some?
      modifies this
      ensures State() == AfterCalls(old(State()), created, uploaded)
    {
      sent := sent + [CreateRequest(State())];
      if created.Failure? {
        error, isSubmitting := Some(CreateFailed), false;
        assert State() == FormState(title, description, photo, photoPreview, ingredients, instructions,
                                    isSubmitting, error, sent, onCreateCalls);
      } else {
        UploadPhoto(created.payload.id, uploaded);
      }
    }

    /**
     * The photo POST to the recipe just created, then the reset and `onCreate`,
     * or the message. Like `SendRecipe`, a proof split of `handleSubmit`.
     */
    method UploadPhoto(id: string, uploaded: Outcome<PhotoResponse>)
      requires photo.Some?
      modifies this
      ensures State() == AfterUpload(old(State()), id, uploaded)
    {
      sent := sent + [PostPhoto(id, photo.value)];
      if uploaded.Failure? {
        error, isSubmitting := Some(CreateFailed), false;
      } else {
        title, description, photo, photoPreview, ingredients, instructions := "", "", None, None, [], "";
        onCreateCalls, isSubmitting := onCreateCalls + 1, false;
      }
      assert State() == FormState(title, description, photo, photoPreview, ingredients, instructions,
                                  isSubmitting, error, sent, onCreateCalls);
    }
  }
}
