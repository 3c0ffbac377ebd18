/** The configuration form: the partial records its handlers hand to
    `updateState`, the enhancement toggle, and the predicates that gate the
    "proceed to payment" button. */
module Configuration {
  import opened Wrappers
  import opened Types
  import opened Session

  /** `state.enhancements.map(opt => opt.id === id ? { ...opt, selected: !opt.selected } : opt)` */
  function Toggle(opts: seq<EnhancementOption>, id: string): (r: seq<EnhancementOption>)
    ensures |r| == |opts|
    ensures forall i :: 0 <= i < |opts| ==>
      r[i].id == opts[i].id && r[i].labelText == opts[i].labelText &&
      r[i].selected == (if opts[i].id == id then !opts[i].selected else opts[i].selected)
  {
    if |opts| == 0 then []
    else
      var head := if opts[0].id == id then opts[0].(selected := !opts[0].selected) else opts[0];
      [head] + Toggle(opts[1..], id)
  }

  /** Toggling the same id twice gives the list back. */
  lemma ToggleTwice(opts: seq<EnhancementOption>, id: string)
    ensures Toggle(Toggle(opts, id), id) == opts
  {
  }

  /** Toggling an id no entry carries changes nothing. */
  lemma ToggleAbsent(opts: seq<EnhancementOption>, id: string)
    requires forall i :: 0 <= i < |opts| ==> opts[i].id != id
    ensures Toggle(opts, id) == opts
  {
  }

  /** Toggling keeps the ids, so a catalogue with distinct ids keeps them
      distinct; with distinct ids at most one entry changes. */
  lemma ToggleKeepsIds(opts: seq<EnhancementOption>, id: string)
    ensures DistinctIds(opts) ==> DistinctIds(Toggle(opts, id))
    ensures DistinctIds(opts) ==>
      forall i, j :: 0 <= i < |opts| && 0 <= j < |opts| && Toggle(opts, id)[i] != opts[i] && Toggle(opts, id)[j] != opts[j] ==> i == j
  {
  }

  /** `handleFoodTypeChange`: `{ selectedFoodType: value }` */
  function FoodTypeChange(f: FoodType): Update
  {
    NoChange.(selectedFoodType := Some(Some(f)))
  }

  /** `handleEnhancementToggle(id)`: `{ enhancements: updated }` */
  function EnhancementToggle(s: AppState, id: string): Update
  {
    NoChange.(enhancements := Some(Toggle(s.enhancements, id)))
  }

  /** `handleRatioChange(ratio)`: `{ aspectRatio: ratio }` */
  function RatioChange(r: AspectRatio): Update
  {
    NoChange.(aspectRatio := Some(r))
  }

  /** `handleDescriptionChange`: `{ userDescription: value }` */
  function DescriptionChange(d: string): Update
  {
    NoChange.(userDescription := Some(d))
  }

  /** Choosing a category names only the category; the rest of the session is kept. */
  lemma FoodTypeChangeOneField(s: AppState, f: FoodType)
    ensures forall g :: Names(FoodTypeChange(f), g) <==> g == FoodTypeField
    ensures Merge(s, FoodTypeChange(f)) == s.(selectedFoodType := Some(f))
  {
  }

  /** Toggling names only the enhancement list. */
  lemma EnhancementToggleOneField(s: AppState, id: string)
    ensures forall g :: Names(EnhancementToggle(s, id), g) <==> g == EnhancementsField
    ensures Merge(s, EnhancementToggle(s, id)) == s.(enhancements := Toggle(s.enhancements, id))
  {
  }

  /** Choosing a proportion names only the proportion. */
  lemma RatioChangeOneField(s: AppState, r: AspectRatio)
    ensures forall g :: Names(RatioChange(r), g) <==> g == RatioField
    ensures Merge(s, RatioChange(r)) == s.(aspectRatio := r)
  {
  }

  /** Typing a description names only the description. */
  lemma DescriptionChangeOneField(s: AppState, d: string)
    ensures forall g :: Names(DescriptionChange(d), g) <==> g == DescriptionField
    ensures Merge(s, DescriptionChange(d)) == s.(userDescription := d)
  {
  }

  /** `state.imageFile !== null && state.selectedFoodType !== ""` */
  predicate IsFormValid(s: AppState)
  {
    s.imageFile.Some? && FoodTypeText(s.selectedFoodType) != ""
  }

  /** The form is valid exactly when an image is chosen and a category is
      chosen: no category has an empty label. */
  lemma IsFormValidIff(s: AppState)
    ensures IsFormValid(s) <==> s.imageFile.Some? && s.selectedFoodType.Some?
  {
  }

  /** `disabled={!isFormValid || state.isProcessing}` on the proceed button. */
  predicate SubmitDisabled(s: AppState)
  {
    !IsFormValid(s) || s.isProcessing
  }

  /** The proceed button is enabled exactly when an image and a category are
      chosen and no generation is running. */
  lemma SubmitEnabledIff(s: AppState)
    ensures !SubmitDisabled(s) <==> s.imageFile.Some? && s.selectedFoodType.Some? && !s.isProcessing
  {
  }
}
