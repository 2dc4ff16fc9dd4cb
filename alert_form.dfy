// components/forms/AlertForm.tsx: the create-alert dialog. Its numeric inputs
// hold the result of `parseFloat`, which may be NaN, or nothing at all; the
// checks test them for JavaScript truthiness, so 0 and NaN count as missing.
// onSubmit and onClose are modelled by returning what they receive.
module AlertForm {
  import opened Wrappers
  import opened Models

  /** A number field of the form: never set, NaN, or a number. */
  datatype Num = Unset | NaN | Value(v: real)

  /** JavaScript truthiness of a number field. */
  predicate Truthy(n: Num) { n.Value? && n.v != 0.0 }

  datatype Field = StockField | ThresholdPriceField | ThresholdYieldField | TargetYieldField | YieldChangeField

  datatype FormData = FormData(
    stockSymbol: string,
    stockName: string,
    alertType: AlertKind,
    thresholdPrice: Num,
    thresholdYield: Num,
    targetYield: Num,
    yieldChangeThreshold: Num)

  /** The empty form: no stock, a price alert, no numbers. */
  const Initial: FormData := FormData("", "", PriceThreshold, Unset, Unset, Unset, Unset)

  const StockRequired: string := "Stock selection is required"

  /** The field holding each kind's own parameter; announcement kinds have none. */
  function ParamField(k: AlertKind): Option<Field>
  {
    match k
    case PriceThreshold => Some(ThresholdPriceField)
    case HighDividendYield => Some(ThresholdYieldField)
    case TargetDividendYield => Some(TargetYieldField)
    case DividendYieldChange => Some(YieldChangeField)
    case IPOAlert => None
    case DividendAnnouncementAlert => None
  }

  function Param(d: FormData, f: Field): Num
  {
    match f
    case ThresholdPriceField => d.thresholdPrice
    case ThresholdYieldField => d.thresholdYield
    case TargetYieldField => d.targetYield
    case YieldChangeField => d.yieldChangeThreshold
    case StockField => Unset
  }

  /** The message for a falsy parameter. */
  function RequiredMessage(f: Field): string
  {
    match f
    case ThresholdPriceField => "Threshold price is required"
    case ThresholdYieldField => "Minimum dividend yield is required"
    case TargetYieldField => "Target dividend yield is required"
    case YieldChangeField => "Yield change threshold is required"
    case StockField => StockRequired
  }

  /** The message for a parameter at or below zero. */
  function NotPositiveMessage(f: Field): string
  {
    match f
    case ThresholdPriceField => "Threshold price must be greater than 0"
    case ThresholdYieldField => "Minimum dividend yield must be greater than 0"
    case TargetYieldField => "Target dividend yield must be greater than 0"
    case YieldChangeField => "Yield change threshold must be greater than 0"
    case StockField => StockRequired
  }

  /** A parameter passes when it is a number above zero. */
  predicate ParamOk(n: Num) { Truthy(n) && n.v > 0.0 }

  /** The message for a failing parameter: "required" when falsy, else "must be greater than 0". */
  function ParamMessage(f: Field, n: Num): string
  {
    if Truthy(n) then NotPositiveMessage(f) else RequiredMessage(f)
  }

  /**
   * The errors the form reports: a stock is needed unless the kind is
   * high_dividend_yield, and the kind's own parameter must be above zero; no
   * other field ever carries a message.
   */
  function Errors(d: FormData): (r: map<Field, string>)
    ensures StockField in r <==> d.stockSymbol == "" && d.alertType != HighDividendYield
    ensures StockField in r ==> r[StockField] == StockRequired
    ensures forall f :: f in r && f != StockField ==> ParamField(d.alertType) == Some(f)
    ensures ParamField(d.alertType).Some? ==>
      var f := ParamField(d.alertType).value;
      (f in r <==> !ParamOk(Param(d, f))) && (f in r ==> r[f] == ParamMessage(f, Param(d, f)))
  {
    var stock := if d.stockSymbol == "" && d.alertType != HighDividendYield then map[StockField := StockRequired] else map[];
    match ParamField(d.alertType)
    case None => stock
    case Some(f) => if ParamOk(Param(d, f)) then stock else stock[f := ParamMessage(f, Param(d, f))]
  }

  /** Zero, NaN and a missing value all read "is required"; only a negative number reads "must be greater than 0". */
  lemma FalsyMeansRequired(d: FormData)
    requires d.alertType == PriceThreshold
    ensures d.thresholdPrice in {Unset, NaN, Value(0.0)} ==> Errors(d)[ThresholdPriceField] == "Threshold price is required"
    ensures d.thresholdPrice.Value? && d.thresholdPrice.v < 0.0 ==>
      Errors(d)[ThresholdPriceField] == "Threshold price must be greater than 0"
  {
  }

  /** A high-yield alert needs no stock: with a positive minimum yield an empty stock is accepted. */
  lemma HighYieldWithoutStock(y: real)
    requires y > 0.0
    ensures Errors(FormData("", "", HighDividendYield, Unset, Value(y), Unset, Unset)) == map[]
  {
    var r := Errors(FormData("", "", HighDividendYield, Unset, Value(y), Unset, Unset));
    assert r.Keys == {};
  }

  /**
   * The two checks validateForm makes on one kind's parameter: "required" when
   * it is falsy, "must be greater than 0" when it is a number at or below zero.
   * Only a failing parameter of the selected kind gets a message.
   */
  method CheckParam(e: map<Field, string>, selected: bool, n: Num, f: Field) returns (r: map<Field, string>)
    ensures r == if selected && !ParamOk(n) then e[f := ParamMessage(f, n)] else e
  {
    r := e;
    if selected && !Truthy(n) {
      r := r[f := RequiredMessage(f)];
    }
    if selected && Truthy(n) && n.v <= 0.0 {
      r := r[f := NotPositiveMessage(f)];
    }
  }

  /** The checks of validateForm in the source's order, each later one overwriting its field. */
  method CheckForm(d: FormData) returns (e: map<Field, string>)
    ensures e == Errors(d)
  {
    e := map[];
    if d.stockSymbol == "" && d.alertType != HighDividendYield {
      e := e[StockField := StockRequired];
    }
    ghost var stock := e;
    var e1 := CheckParam(e, d.alertType == PriceThreshold, d.thresholdPrice, ThresholdPriceField);
    var e2 := CheckParam(e1, d.alertType == HighDividendYield, d.thresholdYield, ThresholdYieldField);
    var e3 := CheckParam(e2, d.alertType == TargetDividendYield, d.targetYield, TargetYieldField);
    e := CheckParam(e3, d.alertType == DividendYieldChange, d.yieldChangeThreshold, YieldChangeField);
    match d.alertType {
      case IPOAlert => assert e == stock == Errors(d);
      case DividendAnnouncementAlert => assert e == stock == Errors(d);
      case PriceThreshold => assert e == e1 == Errors(d);
      case HighDividendYield => assert e1 == stock; assert e == e2 == Errors(d);
      case TargetDividendYield => assert e2 == stock; assert e == e3 == Errors(d);
      case DividendYieldChange => assert e3 == stock; assert e == Errors(d);
    }
  }

  class Form {
    var data: FormData
    var errors: map<Field, string>

    constructor()
      ensures data == Initial && errors == map[]
    {
      data := Initial;
      errors := map[];
    }

    /** validateForm: the errors are replaced by those of the current data. */
    method ValidateForm() returns (valid: bool)
      modifies this
      ensures errors == Errors(data) && data == old(data)
      ensures valid <==> errors == map[]
    {
      var e := CheckForm(data);
      errors := e;
      valid := |e.Keys| == 0;
    }

    /** handleClose: back to the empty form with no errors; onClose runs. */
    method Close() returns (closed: bool)
      modifies this
      ensures data == Initial && errors == map[] && closed
    {
      data := Initial;
      errors := map[];
      closed := true;
    }

    /**
     * handleSubmit: a valid form is handed to onSubmit and the dialog closes
     * and resets; an invalid one only shows its errors.
     */
    method Submit() returns (submitted: Option<FormData>, closed: bool)
      modifies this
      ensures submitted.Some? <==> Errors(old(data)) == map[]
      ensures submitted.Some? ==> submitted.value == old(data) && closed && data == Initial && errors == map[]
      ensures submitted.None? ==> !closed && data == old(data) && errors == Errors(old(data))
    {
      var valid := ValidateForm();
      if valid {
        submitted := Some(data);
        closed := Close();
      } else {
        submitted := None;
        closed := false;
      }
    }

    /** handleStockChange: a chosen stock sets symbol and name; clearing the picker keeps the previous stock. */
    method StockChange(value: Option<(string, string)>)
      modifies this
      ensures value.None? ==> data == old(data)
      ensures value.Some? ==> data == old(data).(stockSymbol := value.value.0, stockName := value.value.1)
      ensures errors == old(errors)
    {
      if value.Some? {
        data := data.(stockSymbol := value.value.0, stockName := value.value.1);
      }
    }
  }
}
