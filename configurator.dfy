/** The five-step lead form `ConfiguratorForm`: its step, its answers and its error message. */
module Configurator {
  import opened Wrappers

  /** An attached photo, identified by its file name. */
  type Photo = string

  /** The `formData` record. */
  datatype FormData = FormData(
    hasTradeIn: string,
    tradeInInfo: string,
    wantsFinancing: string,
    pickupPreference: string,
    email: string,
    phone: string,
    tradeInPhoto: Option<Photo>)

  /** The text fields `updateData` writes. */
  datatype Field = HasTradeIn | TradeInInfo | WantsFinancing | PickupPreference | Email | Phone

  const TotalSteps: int := 5
  const ContactError: string := "Inserisci almeno un contatto."
  const FinancingOptions: seq<string> :=
    ["Sì, intero importo", "Sì, parzialmente", "No", "Non so, vorrei info"]
  const PickupOptions: seq<string> :=
    ["Il prima possibile", "Ritiro programmato (mese prossimo)", "Non so, devo decidere"]
  const EmptyForm: FormData := FormData("", "", "", "", "", "", None)

  function Get(d: FormData, key: Field): string {
    match key
    case HasTradeIn => d.hasTradeIn
    case TradeInInfo => d.tradeInInfo
    case WantsFinancing => d.wantsFinancing
    case PickupPreference => d.pickupPreference
    case Email => d.email
    case Phone => d.phone
  }

  /** The updater of `updateData`: `{ ...prev, [key]: value }`. */
  function Updated(d: FormData, key: Field, value: string): (r: FormData)
    ensures Get(r, key) == value
    ensures forall k :: k != key ==> Get(r, k) == Get(d, k)
    ensures r.tradeInPhoto == d.tradeInPhoto
  {
    match key
    case HasTradeIn => d.(hasTradeIn := value)
    case TradeInInfo => d.(tradeInInfo := value)
    case WantsFinancing => d.(wantsFinancing := value)
    case PickupPreference => d.(pickupPreference := value)
    case Email => d.(email := value)
    case Phone => d.(phone := value)
  }

  /** The steps at which `handleNext` refuses to advance, given the answers so far. */
  predicate Blocked(step: int, d: FormData) {
    || (step == 1 && d.hasTradeIn == "")
    || (step == 2 && d.wantsFinancing == "")
    || (step == 3 && d.email == "" && d.phone == "")
    || (step == 4 && d.pickupPreference == "")
  }

  /** The controls the form can show. */
  datatype Control =
    | Continue
    | Back
    | TradeInYes
    | TradeInNo
    | Financing(option: string)
    | Pickup(option: string)
    | Edit(field: Field, value: string)
    | AttachPhoto(photo: Photo)

  class ConfiguratorForm {
    var step: int
    var data: FormData
    var error: string

    predicate Valid()
      reads this
    {
      1 <= step <= TotalSteps
    }

    /** Whether `c` is on screen: which controls each step renders. */
    predicate Offered(c: Control)
      reads this
      ensures Offered(c) && c.Continue? ==> step == 1 || step == 3
      ensures step == 5 ==> (Offered(c) <==> c.Back?)
    {
      match c
      case Continue => (step == 1 && data.hasTradeIn == "yes") || step == 3
      case Back => step > 1
      case TradeInYes => step == 1
      case TradeInNo => step == 1
      case Financing(o) => step == 2 && o in FinancingOptions
      case Pickup(o) => step == 4 && o in PickupOptions
      case Edit(f, _) =>
        (step == 1 && data.hasTradeIn == "yes" && f == TradeInInfo)
        || (step == 3 && (f == Email || f == Phone))
      case AttachPhoto(_) => step == 1 && data.hasTradeIn == "yes"
    }

    /** Every step offers a way back except the first, and a way on except the last. */
    lemma WayOnAndBack()
      ensures 1 < step ==> Offered(Back)
      ensures step == 1 ==> Offered(TradeInNo)
      ensures step == 2 ==> Offered(Financing(FinancingOptions[0]))
      ensures step == 3 ==> Offered(Continue)
      ensures step == 4 ==> Offered(Pickup(PickupOptions[0]))
    {
    }

    constructor ()
      ensures step == 1 && data == EmptyForm && error == ""
      ensures Valid()
    {
      step := 1;
      data := EmptyForm;
      error := "";
    }

    /**
     * `handleNext`: stay (with a message at the contact step) while the
     * current step is unanswered, otherwise clear the error and advance.
     */
    method HandleNext()
      modifies this
      ensures data == old(data)
      ensures old(step) == 1 && old(data).hasTradeIn == "" ==> step == 1 && error == old(error)
      ensures old(step) == 2 && old(data).wantsFinancing == "" ==> step == 2 && error == old(error)
      ensures old(step) == 3 && old(data).email == "" && old(data).phone == "" ==>
        step == 3 && error == ContactError
      ensures old(step) == 4 && old(data).pickupPreference == "" ==> step == 4 && error == old(error)
      ensures !Blocked(old(step), old(data)) ==> step == old(step) + 1 && error == ""
      ensures old(Valid()) && old(step) < TotalSteps ==> Valid()
    {
      if step == 1 && data.hasTradeIn == "" {
        return;
      }
      if step == 2 && data.wantsFinancing == "" {
        return;
      }
      if step == 3 && data.email == "" && data.phone == "" {
        error := ContactError;
        return;
      }
      if step == 4 && data.pickupPreference == "" {
        return;
      }
      error := "";
      step := step + 1;
    }

    /** `handleBack`: one step back, never below the first. */
    method HandleBack()
      modifies this
      ensures old(step) > 1 ==> step == old(step) - 1
      ensures old(step) <= 1 ==> step == old(step)
      ensures data == old(data) && error == old(error)
      ensures old(Valid()) ==> Valid()
    {
      if step > 1 {
        step := step - 1;
      }
    }

    /** `updateData(key, value)`: change one answer and clear the error. */
    method UpdateData(key: Field, value: string)
      modifies this
      ensures data == Updated(old(data), key, value)
      ensures error == "" && step == old(step)
    {
      data := Updated(data, key, value);
      error := "";
    }

    /** `updateData("tradeInPhoto", file)`. */
    method UpdatePhoto(photo: Photo)
      modifies this
      ensures data == old(data).(tradeInPhoto := Some(photo))
      ensures error == "" && step == old(step)
    {
      data := data.(tradeInPhoto := Some(photo));
      error := "";
    }

    /** The "Sì" button of step 1: record the answer and show the trade-in fields. */
    method ChooseTradeInYes()
      modifies this
      ensures data == old(data).(hasTradeIn := "yes")
      ensures error == "" && step == old(step)
    {
      UpdateData(HasTradeIn, "yes");
    }

    /** The "No" button of step 1: record the answer and go to step 2. */
    method ChooseTradeInNo()
      modifies this
      ensures data == old(data).(hasTradeIn := "no")
      ensures step == 2 && error == old(error)
    {
      data := data.(hasTradeIn := "no");
      step := 2;
    }

    /** A financing option of step 2: record it and go to step 3. */
    method ChooseFinancing(option: string)
      modifies this
      ensures data == old(data).(wantsFinancing := option)
      ensures step == 3 && error == old(error)
    {
      data := data.(wantsFinancing := option);
      step := 3;
    }

    /** A pickup option of step 4: record it and go to step 5. */
    method ChoosePickup(option: string)
      modifies this
      ensures data == old(data).(pickupPreference := option)
      ensures step == 5 && error == old(error)
    {
      data := data.(pickupPreference := option);
      step := 5;
    }

    /** Any control on screen keeps the step within 1 .. TotalSteps. */
    method Press(c: Control)
      requires Valid() && Offered(c)
      modifies this
      ensures Valid()
    {
      match c
      case Continue => HandleNext();
      case Back => HandleBack();
      case TradeInYes => ChooseTradeInYes();
      case TradeInNo => ChooseTradeInNo();
      case Financing(o) => ChooseFinancing(o);
      case Pickup(o) => ChoosePickup(o);
      case Edit(f, v) => UpdateData(f, v);
      case AttachPhoto(p) => UpdatePhoto(p);
    }
  }
}
