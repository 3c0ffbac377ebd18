/** The enumerations, records and the default enhancement catalogue shared by
    every part of the workflow. */
module Types {
  import opened Wrappers

  /** Food categories; each is shown and sent to the model by its label. */
  datatype FoodType =
    | Pizza | Burger | Sushi | Dessert | Drinks
    | HotDish | FastFood | Pasta | Artisan | Pastry
  {
    function Label(): string
    {
      match this
      case Pizza => "Pizza"
      case Burger => "Hambúrguer"
      case Sushi => "Sushi"
      case Dessert => "Doces e sobremesas"
      case Drinks => "Bebidas"
      case HotDish => "Pratos quentes"
      case FastFood => "Fast food"
      case Pasta => "Massas"
      case Artisan => "Lanches artesanais"
      case Pastry => "Pastelaria"
    }
  }

  /** The categories in declaration order, as the category selector lists them. */
  const AllFoodTypes: seq<FoodType> :=
    [Pizza, Burger, Sushi, Dessert, Drinks, HotDish, FastFood, Pasta, Artisan, Pastry]

  /** Output proportions; the value is the text the prompt carries. */
  datatype AspectRatio = Square | Portrait | Story | Landscape
  {
    function Value(): string
    {
      match this
      case Square => "1:1"
      case Portrait => "4:5"
      case Story => "9:16"
      case Landscape => "16:9"
    }
  }

  /** The proportions in declaration order, as the ratio picker lists them. */
  const AllAspectRatios: seq<AspectRatio> := [Square, Portrait, Story, Landscape]

  /** Payment sub-state of the session. */
  datatype PaymentStatus = Idle | Pending | Validating | Paid | Error

  const AllPaymentStatuses: seq<PaymentStatus> := [Idle, Pending, Validating, Paid, Error]

  /** A user-selected file, as far as the core looks into it: an identity
      (the browser object itself, opaque here) and its MIME type. */
  datatype File = File(id: nat, mimeType: string)

  /** `files && files[0]`: the first file of a picker's file list, nothing
      when the list is missing or empty. */
  function FirstFile(files: Option<seq<File>>): (r: Option<File>)
    ensures r.Some? <==> files.Some? && |files.value| > 0
    ensures r.Some? ==> r.value == files.value[0]
  {
    if files.Some? && |files.value| > 0 then Some(files.value[0]) else None
  }

  /** One toggleable visual enhancement (`labelText` is the source's `label`,
      a reserved word in Dafny). */
  datatype EnhancementOption = EnhancementOption(id: string, labelText: string, selected: bool)

  /** The single session record. `selectedFoodType` is `None` where the
      source holds the empty string "no category chosen yet"; the preview and
      result URLs are opaque strings. */
  datatype AppState = AppState(
    imageFile: Option<File>,
    imagePreviewUrl: Option<string>,
    selectedFoodType: Option<FoodType>,
    aspectRatio: AspectRatio,
    enhancements: seq<EnhancementOption>,
    userDescription: string,
    paymentStatus: PaymentStatus,
    proofFile: Option<File>,
    proofPreviewUrl: Option<string>,
    paymentErrorMessage: Option<string>,
    isProcessing: bool,
    isComplete: bool,
    generatedPrompt: string,
    resultImageUrl: Option<string>)

  /** A partial session record: `Some(v)` names a field and its new value,
      `None` leaves the field out. */
  datatype Update = Update(
    imageFile: Option<Option<File>>,
    imagePreviewUrl: Option<Option<string>>,
    selectedFoodType: Option<Option<FoodType>>,
    aspectRatio: Option<AspectRatio>,
    enhancements: Option<seq<EnhancementOption>>,
    userDescription: Option<string>,
    paymentStatus: Option<PaymentStatus>,
    proofFile: Option<Option<File>>,
    proofPreviewUrl: Option<Option<string>>,
    paymentErrorMessage: Option<Option<string>>,
    isProcessing: Option<bool>,
    isComplete: Option<bool>,
    generatedPrompt: Option<string>,
    resultImageUrl: Option<Option<string>>)

  /** The empty partial record `{}`. */
  const NoChange: Update :=
    Update(None, None, None, None, None, None, None, None, None, None, None, None, None, None)

  /** The text the source stores for the category: its label, or "" when
      none has been chosen. */
  function FoodTypeText(t: Option<FoodType>): string
  {
    match t
    case Some(f) => f.Label()
    case None => ""
  }

  /** The enhancement catalogue every session starts with. */
  const DefaultEnhancements: seq<EnhancementOption> := [
    EnhancementOption("lighting", "Iluminação profissional de estúdio", true),
    EnhancementOption("colors", "Cores mais vivas e naturais", true),
    EnhancementOption("background", "Fundo sofisticado e desfocado", true),
    EnhancementOption("editorial", "Estilo editorial gastronômico", true),
    EnhancementOption("texture", "Realce de textura, brilho e frescor", true),
    EnhancementOption("structure", "Manter o produto sem alterações estruturais", true)
  ]

  /** No two entries of a catalogue share an id. */
  predicate DistinctIds(opts: seq<EnhancementOption>)
  {
    forall i, j :: 0 <= i < j < |opts| ==> opts[i].id != opts[j].id
  }

  /** The default catalogue: six entries, all selected, with distinct ids and
      non-empty labels. */
  lemma DefaultEnhancementsShape()
    ensures |DefaultEnhancements| == 6
    ensures forall i :: 0 <= i < 6 ==> DefaultEnhancements[i].selected
    ensures forall i :: 0 <= i < 6 ==> DefaultEnhancements[i].labelText != ""
    ensures DistinctIds(DefaultEnhancements)
  {
  }

  /** Every category has a non-empty label, and no two categories share one,
      so the ten labels the selector offers are distinct. */
  lemma FoodTypeLabels()
    ensures |AllFoodTypes| == 10
    ensures forall f: FoodType :: f in AllFoodTypes && f.Label() != ""
    ensures forall i, j :: 0 <= i < j < 10 ==> AllFoodTypes[i].Label() != AllFoodTypes[j].Label()
  {
    forall f: FoodType ensures f in AllFoodTypes {
      match f
      case Pizza => assert AllFoodTypes[0] == f;
      case Burger => assert AllFoodTypes[1] == f;
      case Sushi => assert AllFoodTypes[2] == f;
      case Dessert => assert AllFoodTypes[3] == f;
      case Drinks => assert AllFoodTypes[4] == f;
      case HotDish => assert AllFoodTypes[5] == f;
      case FastFood => assert AllFoodTypes[6] == f;
      case Pasta => assert AllFoodTypes[7] == f;
      case Artisan => assert AllFoodTypes[8] == f;
      case Pastry => assert AllFoodTypes[9] == f;
    }
  }

  /** A category is recovered from its label. */
  lemma FoodTypeLabelInjective(f: FoodType, g: FoodType)
    requires f.Label() == g.Label()
    ensures f == g
  {
  }

  /** The four proportions have four distinct values and the picker offers
      every one of them. */
  lemma AspectRatioValues()
    ensures |AllAspectRatios| == 4
    ensures forall r: AspectRatio :: r in AllAspectRatios
    ensures forall i, j :: 0 <= i < j < 4 ==> AllAspectRatios[i].Value() != AllAspectRatios[j].Value()
  {
    forall r: AspectRatio ensures r in AllAspectRatios {
      match r
      case Square => assert AllAspectRatios[0] == r;
      case Portrait => assert AllAspectRatios[1] == r;
      case Story => assert AllAspectRatios[2] == r;
      case Landscape => assert AllAspectRatios[3] == r;
    }
  }

  /** The payment status takes exactly five values. */
  lemma PaymentStatusValues()
    ensures |AllPaymentStatuses| == 5
    ensures forall p: PaymentStatus :: p in AllPaymentStatuses
    ensures forall i, j :: 0 <= i < j < 5 ==> AllPaymentStatuses[i] != AllPaymentStatuses[j]
  {
    forall p: PaymentStatus ensures p in AllPaymentStatuses {
      match p
      case Idle => assert AllPaymentStatuses[0] == p;
      case Pending => assert AllPaymentStatuses[1] == p;
      case Validating => assert AllPaymentStatuses[2] == p;
      case Paid => assert AllPaymentStatuses[3] == p;
      case Error => assert AllPaymentStatuses[4] == p;
    }
  }
}
