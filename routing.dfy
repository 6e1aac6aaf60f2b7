/** RoutingControl.resolveTxFuncApi: which transaction-function API of the session a
    routing value selects. */
module Routing {
  import opened Wrappers
  import opened Text
  import opened Config

  /** The session's ExecuteWrite, its ExecuteRead, or a panic with this message. */
  datatype TxFuncApi = ExecuteWriteApi | ExecuteReadApi | Panic(message: string)

  const UnknownRoutingPrefix := "unknown routing control: "

  function ResolveTxFuncApi(rc: RoutingControl): (api: TxFuncApi)
    ensures api == ExecuteWriteApi <==> rc == Writers
    ensures api == ExecuteReadApi <==> rc == Readers
    ensures api.Panic? <==> rc != Writers && rc != Readers
  {
    if rc == Writers then ExecuteWriteApi
    else if rc == Readers then ExecuteReadApi
    else Panic(UnknownRoutingPrefix + NatToDecimal(rc as nat))
  }

  /** The panic message names the offending value in decimal, as `%d` does. */
  lemma PanicMessageNamesValue(rc: RoutingControl)
    requires rc != Writers && rc != Readers
    ensures ResolveTxFuncApi(rc).Panic?
    ensures var m := ResolveTxFuncApi(rc).message;
      |m| > |UnknownRoutingPrefix| && m[..|UnknownRoutingPrefix|] == UnknownRoutingPrefix
      && ParseNat(m[|UnknownRoutingPrefix|..]) == Some(rc as nat)
  {
    var m := ResolveTxFuncApi(rc).message;
    assert m[|UnknownRoutingPrefix|..] == NatToDecimal(rc as nat);
    NatDecimalRoundTrip(rc as nat);
  }

  /** A config built from the package's options never reaches the panic; one in
      which no option touches routing behaves as explicit Writers. */
  lemma {:induction false} PackageOptionsNeverPanic(options: seq<QueryConfigOption>)
    requires forall k :: 0 <= k < |options| ==> options[k].IsPackageOption()
    ensures NoNilOption(options)
    ensures !ResolveTxFuncApi(Fold(options).routingControl).Panic?
    ensures (forall k :: 0 <= k < |options| ==> Target(options[k]) != RoutingField) ==>
      ResolveTxFuncApi(Fold(options).routingControl) == ExecuteWriteApi
  {
    PackageOptionsKeepRoutingKnown(options);
    if forall k :: 0 <= k < |options| ==> Target(options[k]) != RoutingField {
      UntouchedFieldKeepsZero(options, RoutingField);
    }
  }
}
