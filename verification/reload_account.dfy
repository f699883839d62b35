/**
 * The account-reload dispatcher: given a stored account, pick the reload
 * routine of the account's provider, call it, and bring its output into the
 * one `{instance, authentication}` shape every caller receives.
 *
 * The provider routines are not part of this model: they are passed in as an
 * `Adapters` value of total functions, each answering `Ok` or `Err` (a rejected
 * promise). The dispatcher reports, next to its result, the adapter calls it
 * made, so that which adapter was consulted, with what argument and in which
 * order, can be stated.
 */
module ReloadAccount {
  import opened Wrappers

  /** The closed service tag of an account; `Unrecognized` stands for any other value. */
  datatype Service =
    | Pronote | Local | Turboself | ARD | Izly | Skolengo | EcoleDirecte | Multi
    | Unrecognized

  /**
   * A JavaScript value as far as the dispatcher looks at it. `Handle` is an
   * opaque live client object (a provider instance).
   */
  datatype Value =
    | Undefined
    | Null
    | Bool(b: bool)
    | Num(n: int)
    | Str(s: string)
    | Obj(fields: map<string, Value>)
    | Handle(id: nat)

  /** JavaScript truthiness, as used by `||`: the falsy values are `undefined`, `null`, `false`, `0` and `""`. */
  function Truthy(v: Value): (t: bool)
    ensures !t <==> v in {Undefined, Null, Bool(false), Num(0), Str("")}
  {
    match v
    case Undefined => false
    case Null => false
    case Bool(b) => b
    case Num(n) => n != 0
    case Str(s) => s != ""
    case Obj(_) => true
    case Handle(_) => true
  }

  /**
   * A stored account. `identityRawData` is `identityProvider.rawData`, which
   * only Local accounts carry; it is ignored for every other service.
   */
  datatype Account = Account(
    service: Service,
    authentication: Value,
    instance: Value,
    identityRawData: Value)

  /** The uniform result shape `Reconnected`. */
  datatype Reconnected = Reconnected(instance: Value, authentication: Value)

  /** Why an adapter rejected: network failure, expired credential, protocol error. */
  datatype Error = AdapterError(reason: string)

  /** The provider routines the dispatcher can reach, one per loaded module export. */
  datatype Adapters = Adapters(
    pronoteReloadInstance: Value -> Result<Reconnected, Error>,
    turboselfReload: Account -> Result<Value, Error>,
    ardReload: Account -> Result<Value, Error>,
    ardGetOnlinePayments: Value -> Result<Value, Error>,
    izlyReload: Account -> Result<Value, Error>,
    skolengoReload: Account -> Result<Reconnected, Error>,
    ecoleDirecteReload: Account -> Result<Reconnected, Error>,
    multiReloadInstance: Value -> Result<Reconnected, Error>)

  /** One adapter invocation, with the argument it was given. */
  datatype Call =
    | PronoteReloadInstance(authentication: Value)
    | TurboselfReload(account: Account)
    | ArdReload(account: Account)
    | ArdGetOnlinePayments(instance: Value)
    | IzlyReload(account: Account)
    | SkolengoReload(account: Account)
    | EcoleDirecteReload(account: Account)
    | MultiReloadInstance(authentication: Value)

  /** The provider whose module a call belongs to. */
  function CallService(c: Call): Service {
    match c
    case PronoteReloadInstance(_) => Pronote
    case TurboselfReload(_) => Turboself
    case ArdReload(_) => ARD
    case ArdGetOnlinePayments(_) => ARD
    case IzlyReload(_) => Izly
    case SkolengoReload(_) => Skolengo
    case EcoleDirecteReload(_) => EcoleDirecte
    case MultiReloadInstance(_) => Multi
  }

  function ErrorOf<R>(r: Result<R, Error>): Option<Error> {
    match r
    case Ok(_) => None
    case Err(e) => Some(e)
  }

  /** The rejection a call receives from the adapters, if it is rejected. */
  function CallError(ad: Adapters, c: Call): Option<Error> {
    match c
    case PronoteReloadInstance(a) => ErrorOf(ad.pronoteReloadInstance(a))
    case TurboselfReload(acc) => ErrorOf(ad.turboselfReload(acc))
    case ArdReload(acc) => ErrorOf(ad.ardReload(acc))
    case ArdGetOnlinePayments(i) => ErrorOf(ad.ardGetOnlinePayments(i))
    case IzlyReload(acc) => ErrorOf(ad.izlyReload(acc))
    case SkolengoReload(acc) => ErrorOf(ad.skolengoReload(acc))
    case EcoleDirecteReload(acc) => ErrorOf(ad.ecoleDirecteReload(acc))
    case MultiReloadInstance(a) => ErrorOf(ad.multiReloadInstance(a))
  }

  /**
   * The own enumerable fields an object spread `...v` contributes: an object's
   * fields; nothing for `undefined`, `null`, booleans and numbers.
   */
  function SpreadFields(v: Value): (m: map<string, Value>)
    ensures v.Obj? ==> m == v.fields
    ensures v.Undefined? || v.Null? || v.Bool? || v.Num? ==> m == map[]
  {
    match v
    case Obj(m) => m
    case _ => map[]
  }

  /** The object literal `{...base, [key]: x}`. */
  function WithField(base: Value, key: string, x: Value): (r: Value)
    ensures r.Obj?
    ensures r.fields.Keys == SpreadFields(base).Keys + {key}
    ensures key in r.fields && r.fields[key] == x
    ensures forall k :: k in SpreadFields(base) && k != key ==> k in r.fields && r.fields[k] == SpreadFields(base)[k]
  {
    Obj(SpreadFields(base)[key := x])
  }

  /** What a reload call produced: the settled result, and the adapter calls made, in order. */
  datatype Outcome = Outcome(result: Result<Reconnected, Error>, calls: seq<Call>)

  /**
   * `reload(account)`: one arm per service tag. Delegating arms propagate an
   * adapter rejection unchanged; Local and unrecognised tags call nothing and
   * never fail.
   */
  function Reload(ad: Adapters, account: Account): (out: Outcome)
    // only the account's own provider module is consulted
    ensures forall i :: 0 <= i < |out.calls| ==> CallService(out.calls[i]) == account.service
    // at most one call, two (strictly in sequence) for ARD
    ensures |out.calls| <= if account.service == ARD then 2 else 1
    // Local and unrecognised tags call no adapter and never fail
    ensures account.service in {Local, Unrecognized} ==> out.calls == [] && out.result.Ok?
    // every other tag consults its adapter
    ensures account.service !in {Local, Unrecognized} ==> |out.calls| >= 1
    // a call is made only after every earlier one succeeded
    ensures forall i :: 0 <= i < |out.calls| - 1 ==> CallError(ad, out.calls[i]).None?
    // the reload fails exactly when its last call was rejected, with that very rejection
    ensures out.result.Err? <==> |out.calls| > 0 && CallError(ad, out.calls[|out.calls| - 1]).Some?
    ensures out.result.Err? ==> CallError(ad, out.calls[|out.calls| - 1]) == Some(out.result.error)
  {
    match account.service
    case Pronote =>
      Outcome(ad.pronoteReloadInstance(account.authentication),
              [PronoteReloadInstance(account.authentication)])
    case Local =>
      var instance := if Truthy(account.identityRawData) then account.identityRawData else Bool(true);
      Outcome(Ok(Reconnected(instance, Bool(true))), [])
    case Turboself =>
      var calls := [TurboselfReload(account)];
      (match ad.turboselfReload(account)
       case Err(e) => Outcome(Err(e), calls)
       case Ok(auth) => Outcome(Ok(Reconnected(Undefined, auth)), calls))
    case ARD =>
      (match ad.ardReload(account)
       case Err(e) => Outcome(Err(e), [ArdReload(account)])
       case Ok(instance) =>
         var calls := [ArdReload(account), ArdGetOnlinePayments(instance)];
         (match ad.ardGetOnlinePayments(instance)
          case Err(e) => Outcome(Err(e), calls)
          case Ok(balances) =>
            Outcome(Ok(Reconnected(instance, WithField(account.authentication, "balances", balances))), calls)))
    case Izly =>
      var calls := [IzlyReload(account)];
      (match ad.izlyReload(account)
       case Err(e) => Outcome(Err(e), calls)
       case Ok(instance) => Outcome(Ok(Reconnected(instance, account.authentication)), calls))
    case Skolengo =>
      var calls := [SkolengoReload(account)];
      (match ad.skolengoReload(account)
       case Err(e) => Outcome(Err(e), calls)
       case Ok(res) => Outcome(Ok(Reconnected(res.instance, res.authentication)), calls))
    case EcoleDirecte =>
      var calls := [EcoleDirecteReload(account)];
      (match ad.ecoleDirecteReload(account)
       case Err(e) => Outcome(Err(e), calls)
       case Ok(res) => Outcome(Ok(Reconnected(res.instance, res.authentication)), calls))
    case Multi =>
      Outcome(ad.multiReloadInstance(account.authentication),
              [MultiReloadInstance(account.authentication)])
    case Unrecognized =>
      Outcome(Ok(Reconnected(Undefined, Undefined)), [])
  }

  // ---------------------------------------------------------------------
  // The per-service output rules.
  // ---------------------------------------------------------------------

  /** Pronote: the adapter gets the stored authentication and its answer is the whole result. */
  lemma PronotePassthrough(ad: Adapters, account: Account)
    requires account.service == Pronote
    ensures Reload(ad, account) == Outcome(ad.pronoteReloadInstance(account.authentication),
                                           [PronoteReloadInstance(account.authentication)])
  {
  }

  /** Local: no adapter, never fails; authentication is `true`, instance is the raw identity data if truthy, else `true`. */
  lemma LocalSentinel(ad: Adapters, account: Account)
    requires account.service == Local
    ensures Reload(ad, account).calls == []
    ensures Reload(ad, account).result.Ok?
    ensures Reload(ad, account).result.value.authentication == Bool(true)
    ensures Truthy(account.identityRawData) ==>
      Reload(ad, account).result.value.instance == account.identityRawData
    ensures !Truthy(account.identityRawData) ==>
      Reload(ad, account).result.value.instance == Bool(true)
  {
  }

  /** Turboself: authentication is the adapter's answer and instance is `undefined`, whatever the stored instance. */
  lemma TurboselfDropsInstance(ad: Adapters, account: Account)
    requires account.service == Turboself
    ensures Reload(ad, account).calls == [TurboselfReload(account)]
    ensures ad.turboselfReload(account).Ok? ==>
      Reload(ad, account).result == Ok(Reconnected(Undefined, ad.turboselfReload(account).value))
  {
  }

  /** ARD: the balances fetch happens only after a successful reload, on the instance it returned; either failure fails the whole reload. */
  lemma ArdStepOrder(ad: Adapters, account: Account)
    requires account.service == ARD
    ensures ad.ardReload(account).Err? ==>
      Reload(ad, account) == Outcome(Err(ad.ardReload(account).error), [ArdReload(account)])
    ensures ad.ardReload(account).Ok? ==>
      Reload(ad, account).calls == [ArdReload(account), ArdGetOnlinePayments(ad.ardReload(account).value)]
    ensures ad.ardReload(account).Ok? && ad.ardGetOnlinePayments(ad.ardReload(account).value).Err? ==>
      Reload(ad, account).result == Err(ad.ardGetOnlinePayments(ad.ardReload(account).value).error)
  {
  }

  /** ARD: the new instance, and the stored authentication with `balances` set to the fetched value and every other field kept. */
  lemma ArdMergesBalances(ad: Adapters, account: Account, instance: Value, balances: Value)
    requires account.service == ARD
    requires ad.ardReload(account) == Ok(instance)
    requires ad.ardGetOnlinePayments(instance) == Ok(balances)
    ensures Reload(ad, account).result.Ok?
    ensures Reload(ad, account).result.value.instance == instance
    ensures var auth := Reload(ad, account).result.value.authentication;
      && auth.Obj?
      && auth.fields.Keys == SpreadFields(account.authentication).Keys + {"balances"}
      && auth.fields["balances"] == balances
      && forall k :: k in SpreadFields(account.authentication) && k != "balances" ==>
           auth.fields[k] == SpreadFields(account.authentication)[k]
  {
  }

  /** Izly: instance is the adapter's answer and authentication is the stored one, unchanged. */
  lemma IzlyKeepsAuthentication(ad: Adapters, account: Account)
    requires account.service == Izly
    ensures Reload(ad, account).calls == [IzlyReload(account)]
    ensures ad.izlyReload(account).Ok? ==>
      Reload(ad, account).result == Ok(Reconnected(ad.izlyReload(account).value, account.authentication))
  {
  }

  /** Skolengo: both fields of the adapter's answer are passed through. */
  lemma SkolengoPassthrough(ad: Adapters, account: Account)
    requires account.service == Skolengo
    ensures Reload(ad, account) == Outcome(ad.skolengoReload(account), [SkolengoReload(account)])
  {
  }

  /** EcoleDirecte: both fields of the adapter's answer are passed through. */
  lemma EcoleDirectePassthrough(ad: Adapters, account: Account)
    requires account.service == EcoleDirecte
    ensures Reload(ad, account) == Outcome(ad.ecoleDirecteReload(account), [EcoleDirecteReload(account)])
  {
  }

  /** Multi: same shape as Pronote, the adapter's answer is the whole result. */
  lemma MultiPassthrough(ad: Adapters, account: Account)
    requires account.service == Multi
    ensures Reload(ad, account) == Outcome(ad.multiReloadInstance(account.authentication),
                                           [MultiReloadInstance(account.authentication)])
  {
  }

  /** An unrecognised tag: `{instance: undefined, authentication: undefined}`, no call, no failure. */
  lemma UnrecognizedIsUndefinedPair(ad: Adapters, account: Account)
    requires account.service == Unrecognized
    ensures Reload(ad, account) == Outcome(Ok(Reconnected(Undefined, Undefined)), [])
  {
  }

  /**
   * Every delegating arm rejects with exactly the rejection of the adapter
   * call it makes; for ARD either of its two calls.
   */
  lemma AdapterRejectionPropagates(ad: Adapters, account: Account)
    requires account.service !in {Local, Unrecognized}
    ensures account.service == Pronote && ad.pronoteReloadInstance(account.authentication).Err? ==>
      Reload(ad, account).result == Err(ad.pronoteReloadInstance(account.authentication).error)
    ensures account.service == Turboself && ad.turboselfReload(account).Err? ==>
      Reload(ad, account).result == Err(ad.turboselfReload(account).error)
    ensures account.service == ARD && ad.ardReload(account).Err? ==>
      Reload(ad, account).result == Err(ad.ardReload(account).error)
    ensures (account.service == ARD && ad.ardReload(account).Ok?
             && ad.ardGetOnlinePayments(ad.ardReload(account).value).Err?) ==>
      Reload(ad, account).result == Err(ad.ardGetOnlinePayments(ad.ardReload(account).value).error)
    ensures account.service == Izly && ad.izlyReload(account).Err? ==>
      Reload(ad, account).result == Err(ad.izlyReload(account).error)
    ensures account.service == Skolengo && ad.skolengoReload(account).Err? ==>
      Reload(ad, account).result == Err(ad.skolengoReload(account).error)
    ensures account.service == EcoleDirecte && ad.ecoleDirecteReload(account).Err? ==>
      Reload(ad, account).result == Err(ad.ecoleDirecteReload(account).error)
    ensures account.service == Multi && ad.multiReloadInstance(account.authentication).Err? ==>
      Reload(ad, account).result == Err(ad.multiReloadInstance(account.authentication).error)
  {
  }
}
