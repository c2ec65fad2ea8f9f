/** The scaler chosen by `svm_tuned` from its `g_val` tag. */
module ScalerSelection {

  /** The five scikit-learn transforms the tag can select. */
  datatype ScalerKind =
    | QuantileNormal    // QuantileTransformer(output_distribution='normal')
    | QuantileUniform   // QuantileTransformer() with its default uniform output
    | Robust            // RobustScaler()
    | MinMax            // MinMaxScaler()
    | Standard          // StandardScaler()

  /** The module default `G_VAL`. */
  const DefaultScalerTag: string := "quantile"

  /** The if/elif chain on `g_val`: four tags are recognised and every other
      string, "standard" or not, silently selects the standard scaler. There
      is no error case. */
  function SelectScaler(tag: string): (kind: ScalerKind)
    ensures kind == QuantileNormal <==> tag == "gaussian"
    ensures kind == QuantileUniform <==> tag == "quantile"
    ensures kind == Robust <==> tag == "robust"
    ensures kind == MinMax <==> tag == "minmax"
    ensures kind == Standard <==> tag !in {"gaussian", "quantile", "robust", "minmax"}
  {
    if tag == "gaussian" then QuantileNormal
    else if tag == "quantile" then QuantileUniform
    else if tag == "robust" then Robust
    else if tag == "minmax" then MinMax
    else Standard
  }

  /** The tag the documentation lists for each scaler. */
  function DocumentedTag(kind: ScalerKind): (tag: string)
    ensures |tag| > 0
  {
    match kind
    case QuantileNormal => "gaussian"
    case QuantileUniform => "quantile"
    case Robust => "robust"
    case MinMax => "minmax"
    case Standard => "standard"
  }

  /** Every scaler is reachable: its documented tag selects it, and distinct
      scalers have distinct documented tags. */
  lemma DocumentedTagSelects(kind: ScalerKind, other: ScalerKind)
    ensures SelectScaler(DocumentedTag(kind)) == kind
    ensures kind != other ==> DocumentedTag(kind) != DocumentedTag(other)
  {
    assert DocumentedTag(Standard) == "standard";
    if kind != other {
      assert SelectScaler(DocumentedTag(kind)) != SelectScaler(DocumentedTag(other));
    }
  }

  /** A tag outside the list, such as "bogus", or one that differs only in
      case, falls back to the standard scaler; the default tag selects the
      uniform quantile transformer. */
  lemma UnrecognisedTagsFallBack()
    ensures SelectScaler("bogus") == Standard
    ensures SelectScaler("Gaussian") == Standard
    ensures SelectScaler("") == Standard
    ensures SelectScaler(DefaultScalerTag) == QuantileUniform
  {
    assert "bogus" != "gaussian" && "Gaussian" != "gaussian";
  }
}
