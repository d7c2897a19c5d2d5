/**
 * The five-step deck wizard: a form over the five step records, a current
 * step 0..4, a flag saying whether an existing deck is being edited, and the
 * shared deck store.  Every change to the form is mirrored into the draft slot;
 * generating saves the deck and drops the draft.
 */
module CreateWizard {
  import opened Wrappers
  import opened DeckTypes
  import Storage

  /** The form's starting contents: every field empty. */
  const EMPTY_DECK: DeckFields := DeckFields(
    Basics("", "", "", ""),
    Narrative("", "", ""),
    MarketInfo("", "", ""),
    Monetization("", "", ""),
    Traction("", "", "", "", ""))

  /** Steps are numbered 0 to LAST_STEP. */
  const LAST_STEP: int := 4

  /** The keys of each step record that the form edits. */
  datatype BasicsKey = CompanyName | OneLiner | IndustryName | StageName
  datatype NarrativeKey = Problem | Solution | UniqueAdvantage
  datatype MarketKey = TargetCustomer | MarketSize | Competitors
  datatype MonetizationKey = RevenueModel | Pricing | Channels
  datatype TractionKey = TeamSize | Revenue | Users | FundingRaised | FundingAsk

  /** A `(stepKey, field)` pair: the step record and the field inside it. */
  datatype FieldKey =
    | Step1(b: BasicsKey)
    | Step2(n: NarrativeKey)
    | Step3(m: MarketKey)
    | Step4(o: MonetizationKey)
    | Step5(t: TractionKey)

  /** The value of one field of the form. */
  function Get(d: DeckFields, k: FieldKey): string {
    match k
    case Step1(b) =>
      (match b
       case CompanyName => d.step1.companyName
       case OneLiner => d.step1.oneLiner
       case IndustryName => d.step1.industry
       case StageName => d.step1.stage)
    case Step2(n) =>
      (match n
       case Problem => d.step2.problem
       case Solution => d.step2.solution
       case UniqueAdvantage => d.step2.uniqueAdvantage)
    case Step3(m) =>
      (match m
       case TargetCustomer => d.step3.targetCustomer
       case MarketSize => d.step3.marketSize
       case Competitors => d.step3.competitors)
    case Step4(o) =>
      (match o
       case RevenueModel => d.step4.revenueModel
       case Pricing => d.step4.pricing
       case Channels => d.step4.channels)
    case Step5(t) =>
      (match t
       case TeamSize => d.step5.teamSize
       case Revenue => d.step5.revenue
       case Users => d.step5.users
       case FundingRaised => d.step5.fundingRaised
       case FundingAsk => d.step5.fundingAsk)
  }

  /** The form with one field replaced, as `{ ...prev, [stepKey]: { ...prev[stepKey], [field]: value } }`. */
  function Set(d: DeckFields, k: FieldKey, v: string): (r: DeckFields)
    ensures k.Step1? || r.step1 == d.step1
    ensures k.Step2? || r.step2 == d.step2
    ensures k.Step3? || r.step3 == d.step3
    ensures k.Step4? || r.step4 == d.step4
    ensures k.Step5? || r.step5 == d.step5
  {
    match k
    case Step1(b) =>
      d.(step1 :=
        match b
        case CompanyName => d.step1.(companyName := v)
        case OneLiner => d.step1.(oneLiner := v)
        case IndustryName => d.step1.(industry := v)
        case StageName => d.step1.(stage := v))
    case Step2(n) =>
      d.(step2 :=
        match n
        case Problem => d.step2.(problem := v)
        case Solution => d.step2.(solution := v)
        case UniqueAdvantage => d.step2.(uniqueAdvantage := v))
    case Step3(m) =>
      d.(step3 :=
        match m
        case TargetCustomer => d.step3.(targetCustomer := v)
        case MarketSize => d.step3.(marketSize := v)
        case Competitors => d.step3.(competitors := v))
    case Step4(o) =>
      d.(step4 :=
        match o
        case RevenueModel => d.step4.(revenueModel := v)
        case Pricing => d.step4.(pricing := v)
        case Channels => d.step4.(channels := v))
    case Step5(t) =>
      d.(step5 :=
        match t
        case TeamSize => d.step5.(teamSize := v)
        case Revenue => d.step5.(revenue := v)
        case Users => d.step5.(users := v)
        case FundingRaised => d.step5.(fundingRaised := v)
        case FundingAsk => d.step5.(fundingAsk := v))
  }

  /** Reading back a field just written gives the written value. */
  lemma GetSet(d: DeckFields, k: FieldKey, v: string)
    ensures Get(Set(d, k, v), k) == v
  {
  }

  /** Writing one field leaves every other field as it was. */
  lemma GetSetOther(d: DeckFields, k: FieldKey, j: FieldKey, v: string)
    requires j != k
    ensures Get(Set(d, k, v), j) == Get(d, j)
  {
    if k.Step1? && j.Step1? {
    } else if k.Step2? && j.Step2? {
    } else if k.Step3? && j.Step3? {
    } else if k.Step4? && j.Step4? {
    } else if k.Step5? && j.Step5? {
    }
  }

  /** Writing a field's own value back changes nothing. */
  lemma SetGet(d: DeckFields, k: FieldKey)
    ensures Set(d, k, Get(d, k)) == d
  {
  }

  /** A second write to the same field overrides the first. */
  lemma SetSet(d: DeckFields, k: FieldKey, v: string, w: string)
    ensures Set(Set(d, k, v), k, w) == Set(d, k, w)
  {
  }

  /** Two forms that agree on every field are the same form. */
  lemma FieldsDetermineForm(d: DeckFields, e: DeckFields)
    requires forall k :: Get(d, k) == Get(e, k)
    ensures d == e
  {
    assert Get(d, Step1(CompanyName)) == Get(e, Step1(CompanyName));
    assert Get(d, Step1(OneLiner)) == Get(e, Step1(OneLiner));
    assert Get(d, Step1(IndustryName)) == Get(e, Step1(IndustryName));
    assert Get(d, Step1(StageName)) == Get(e, Step1(StageName));
    assert d.step1 == e.step1;
    assert Get(d, Step2(Problem)) == Get(e, Step2(Problem));
    assert Get(d, Step2(Solution)) == Get(e, Step2(Solution));
    assert Get(d, Step2(UniqueAdvantage)) == Get(e, Step2(UniqueAdvantage));
    assert d.step2 == e.step2;
    assert Get(d, Step3(TargetCustomer)) == Get(e, Step3(TargetCustomer));
    assert Get(d, Step3(MarketSize)) == Get(e, Step3(MarketSize));
    assert Get(d, Step3(Competitors)) == Get(e, Step3(Competitors));
    assert d.step3 == e.step3;
    assert Get(d, Step4(RevenueModel)) == Get(e, Step4(RevenueModel));
    assert Get(d, Step4(Pricing)) == Get(e, Step4(Pricing));
    assert Get(d, Step4(Channels)) == Get(e, Step4(Channels));
    assert d.step4 == e.step4;
    assert Get(d, Step5(TeamSize)) == Get(e, Step5(TeamSize));
    assert Get(d, Step5(Revenue)) == Get(e, Step5(Revenue));
    assert Get(d, Step5(Users)) == Get(e, Step5(Users));
    assert Get(d, Step5(FundingRaised)) == Get(e, Step5(FundingRaised));
    assert Get(d, Step5(FundingAsk)) == Get(e, Step5(FundingAsk));
    assert d.step5 == e.step5;
  }

  /** Every field of the starting form is empty. */
  lemma EmptyDeckIsEmpty(k: FieldKey)
    ensures Get(EMPTY_DECK, k) == ""
  {
  }

  /** The form as it is written to the draft slot: every step present. */
  function ToDraft(d: DeckFields): (p: Storage.PartialDeck)
    ensures p.step1.Some? && p.step2.Some? && p.step3.Some? && p.step4.Some? && p.step5.Some?
  {
    Storage.PartialDeck(Some(d.step1), Some(d.step2), Some(d.step3), Some(d.step4), Some(d.step5))
  }

  /** A restored draft, with any step the draft lacks taken from the empty form. */
  function Restore(p: Storage.PartialDeck): (d: DeckFields)
    ensures ToDraft(d) == p <==> p.step1.Some? && p.step2.Some? && p.step3.Some? && p.step4.Some? && p.step5.Some?
  {
    DeckFields(
      if p.step1.Some? then p.step1.value else EMPTY_DECK.step1,
      if p.step2.Some? then p.step2.value else EMPTY_DECK.step2,
      if p.step3.Some? then p.step3.value else EMPTY_DECK.step3,
      if p.step4.Some? then p.step4.value else EMPTY_DECK.step4,
      if p.step5.Some? then p.step5.value else EMPTY_DECK.step5)
  }

  /** Restoring a draft the wizard wrote gives back the form it wrote. */
  lemma RestoreToDraft(d: DeckFields)
    ensures Restore(ToDraft(d)) == d
  {
  }

  /**
   * The outcome of the load effect: the form contents and the editing flag.  A
   * non-empty `editId` naming a stored deck loads that deck's fields and turns
   * editing on; otherwise a draft that has its first step is restored; otherwise
   * the form and the flag stay as they were.
   */
  datatype Loaded = Loaded(data: DeckFields, editing: bool)

  function LoadResult(editId: string, decks: seq<DeckData>, draft: Option<Storage.PartialDeck>,
                      data: DeckFields, editing: bool): (r: Loaded)
    ensures r.editing <==> editing || (editId != "" && Storage.Find(decks, editId).Some?)
    ensures editId != "" && Storage.Find(decks, editId).Some? ==> r.data == Storage.Find(decks, editId).value.fields
    ensures (editId == "" || Storage.Find(decks, editId).None?) && (draft.None? || draft.value.step1.None?) ==> r == Loaded(data, editing)
  {
    var existing := if editId != "" then Storage.Find(decks, editId) else None;
    if existing.Some? then Loaded(existing.value.fields, true)
    else if draft.Some? && draft.value.step1.Some? then Loaded(Restore(draft.value), editing)
    else Loaded(data, editing)
  }

  /** Reopening the wizard without an existing deck to edit resumes the form its draft was written from. */
  lemma ResumeDraft(editId: string, decks: seq<DeckData>, d: DeckFields, data: DeckFields, editing: bool)
    requires editId == "" || Storage.Find(decks, editId).None?
    ensures LoadResult(editId, decks, Some(ToDraft(d)), data, editing) == Loaded(d, editing)
  {
    RestoreToDraft(d);
  }

  /** Opening a just-saved deck for editing loads exactly its fields, whatever the draft. */
  lemma EditSavedDeck(decks: seq<DeckData>, deck: DeckData, draft: Option<Storage.PartialDeck>, data: DeckFields, editing: bool)
    requires deck.id != ""
    ensures LoadResult(deck.id, Storage.Upsert(decks, deck), draft, data, editing) == Loaded(deck.fields, true)
  {
    Storage.FindAfterUpsert(decks, deck);
  }

  /** The step after "Continue" below the last step. */
  function NextStep(step: int): (r: int)
    requires 0 <= step < LAST_STEP
    ensures 0 < r <= LAST_STEP
  {
    step + 1
  }

  /** The step after "Back": one less, but never below the first step. */
  function BackStep(step: int): (r: int)
    requires 0 <= step <= LAST_STEP
    ensures 0 <= r < LAST_STEP
    ensures step > 0 ==> r == step - 1
    ensures step == 0 ==> r == 0
  {
    if step - 1 > 0 then step - 1 else 0
  }

  /** "Back" undoes "Continue". */
  lemma BackUndoesNext(step: int)
    requires 0 <= step < LAST_STEP
    ensures BackStep(NextStep(step)) == step
  {
  }

  /** "Continue" undoes "Back" from any step but the first. */
  lemma NextUndoesBack(step: int)
    requires 0 < step <= LAST_STEP
    ensures NextStep(BackStep(step)) == step
  {
  }

  /**
   * The deck `generate` builds: when editing, the id is `editId` and the creation
   * time is the stored deck's (or now when it has none); otherwise a fresh id
   * created now.  The update time is always now.
   */
  function GeneratedDeck(data: DeckFields, isEditing: bool, editId: string, decks: seq<DeckData>,
                         freshId: string, now: string): (r: DeckData)
    ensures r.fields == data && r.updatedAt == now
    ensures r.id == (if isEditing && editId != "" then editId else freshId)
    ensures !isEditing ==> r.createdAt == now
    ensures isEditing && Storage.Find(decks, r.id).Some? && Storage.Find(decks, r.id).value.createdAt != "" ==>
      r.createdAt == Storage.Find(decks, r.id).value.createdAt
    ensures isEditing && (Storage.Find(decks, r.id).None? || Storage.Find(decks, r.id).value.createdAt == "") ==>
      r.createdAt == now
  {
    var id := if isEditing && editId != "" then editId else freshId;
    var stored := Storage.Find(decks, id);
    var createdAt := if isEditing && stored.Some? && stored.value.createdAt != "" then stored.value.createdAt else now;
    DeckData(id, createdAt, now, data)
  }

  /**
   * Saving an edit replaces the stored deck under the same id, keeps its
   * creation time and stores the edited fields; nothing else is added.
   */
  lemma EditKeepsIdentity(data: DeckFields, editId: string, decks: seq<DeckData>, freshId: string, now: string)
    requires editId != "" && Storage.Find(decks, editId).Some?
    requires Storage.Find(decks, editId).value.createdAt != ""
    ensures var deck := GeneratedDeck(data, true, editId, decks, freshId, now);
      var after := Storage.Upsert(decks, deck);
      |after| == |decks|
      && Storage.Find(after, editId) == Some(DeckData(editId, Storage.Find(decks, editId).value.createdAt, now, data))
  {
    var deck := GeneratedDeck(data, true, editId, decks, freshId, now);
    Storage.UpsertReplaces(decks, deck);
    Storage.FindAfterUpsert(decks, deck);
  }

  /** Generating a new deck under an unused id appends it to the stored decks. */
  lemma NewDeckAppends(data: DeckFields, editId: string, decks: seq<DeckData>, freshId: string, now: string)
    requires forall j :: 0 <= j < |decks| ==> decks[j].id != freshId
    ensures var deck := GeneratedDeck(data, false, editId, decks, freshId, now);
      Storage.Upsert(decks, deck) == decks + [DeckData(freshId, now, now, data)]
  {
    var deck := GeneratedDeck(data, false, editId, decks, freshId, now);
    Storage.UpsertAppends(decks, deck);
  }

  /** The wizard page's state. */
  class Wizard {
    /** The step on screen, 0 to LAST_STEP. */
    var step: int
    /** The form contents. */
    var data: DeckFields
    /** Whether an existing deck was loaded for editing. */
    var isEditing: bool
    /** The `edit` query parameter; the empty string when it is absent. */
    const editId: string
    /** The browser storage shared with the rest of the app. */
    const store: Storage.DeckStore

    predicate Valid()
      reads this
    {
      0 <= step <= LAST_STEP && (isEditing ==> editId != "")
    }

    constructor (store: Storage.DeckStore, editId: string)
      ensures Valid()
      ensures this.store == store && this.editId == editId
      ensures step == 0 && data == EMPTY_DECK && !isEditing
    {
      this.store := store;
      this.editId := editId;
      step := 0;
      data := EMPTY_DECK;
      isEditing := false;
    }

    /** Writes the form to the draft slot (the effect that runs whenever the form changes). */
    method SaveForm()
      modifies store
      ensures store.draft == Some(ToDraft(data)) && store.decks == old(store.decks)
    {
      store.SaveDraft(ToDraft(data));
    }

    /** The load effect, followed by the draft write its change of the form triggers. */
    method Load()
      requires Valid()
      modifies this, store
      ensures Valid()
      ensures Loaded(data, isEditing) == LoadResult(editId, old(store.AllDecks()), old(store.draft), old(data), old(isEditing))
      ensures step == old(step)
      ensures store.decks == old(store.decks) && store.draft == Some(ToDraft(data))
    {
      if editId != "" {
        var existing := store.GetDeck(editId);
        if existing.Some? {
          data := existing.value.fields;
          isEditing := true;
          SaveForm();
          return;
        }
      }
      var draft := store.GetDraft();
      if draft.Some? && draft.value.step1.Some? {
        data := Restore(draft.value);
      }
      SaveForm();
    }

    /** `update(stepKey, field, value)`: one field of the form changes, and the draft follows. */
    method Update(k: FieldKey, value: string)
      modifies this, store
      ensures data == Set(old(data), k, value)
      ensures step == old(step) && isEditing == old(isEditing)
      ensures store.decks == old(store.decks) && store.draft == Some(ToDraft(data))
    {
      data := Set(data, k, value);
      SaveForm();
    }

    /** The "Back" button. */
    method Back()
      requires Valid()
      modifies this
      ensures Valid()
      ensures step == BackStep(old(step))
      ensures data == old(data) && isEditing == old(isEditing)
    {
      step := if step - 1 > 0 then step - 1 else 0;
    }

    /**
     * Saves the form as a deck and clears the draft; returns the saved deck, whose
     * page the wizard then opens.
     */
    method Generate(freshId: string, now: string) returns (deck: DeckData)
      modifies store
      ensures deck == GeneratedDeck(data, isEditing, editId, old(store.AllDecks()), freshId, now)
      ensures store.decks == Some(Storage.Upsert(old(store.AllDecks()), deck)) && store.draft == None
      ensures Storage.Find(store.AllDecks(), deck.id) == Some(deck)
    {
      var id := if isEditing && editId != "" then editId else freshId;
      var createdAt := now;
      if isEditing {
        var stored := store.GetDeck(id);
        if stored.Some? && stored.value.createdAt != "" {
          createdAt := stored.value.createdAt;
        }
      }
      deck := store.SaveDeck(DeckData(id, createdAt, now, data), now);
      store.ClearDraft();
    }

    /** The "Continue" button: the next step, or on the last step the generated deck. */
    method Next(freshId: string, now: string) returns (generated: Option<DeckData>)
      requires Valid()
      modifies this, store
      ensures Valid()
      ensures data == old(data) && isEditing == old(isEditing)
      ensures old(step) < LAST_STEP ==>
        (step == NextStep(old(step)) && generated == None
         && store.decks == old(store.decks) && store.draft == old(store.draft))
      ensures old(step) == LAST_STEP ==>
        (step == LAST_STEP
         && generated == Some(GeneratedDeck(data, isEditing, editId, old(store.AllDecks()), freshId, now))
         && store.decks == Some(Storage.Upsert(old(store.AllDecks()), generated.value)) && store.draft == None)
    {
      if step < LAST_STEP {
        step := step + 1;
        generated := None;
      } else {
        var deck := Generate(freshId, now);
        generated := Some(deck);
      }
    }
  }
}
