/** The generated builder that creates a Wallet row (ent/wallet_create.go).

    The builder keeps one optional value per column in its mutation; setters
    fill them, `defaults` supplies the schema defaults for the unset ones,
    `check` reports the first missing or invalid required column in a fixed
    order, and `Save` runs defaults, check, then the insert.

    Decimal amounts and timestamps are opaque values here (nothing in this
    file computes with them). The schema's validators and default values, the
    clock, and the database driver live outside this file and are parameters. */
module EntWalletCreate {
  import opened Wrappers

  /** `time.Time`, opaque. */
  type Time = int
  /** `decimal.Decimal`, opaque. */
  type Decimal = real

  /** `types.WalletConfig`, opaque. */
  datatype WalletConfig = WalletConfig(settings: map<string, string>)

  /** What the `wallet` schema package provides: validators (true = accepted)
      and default values. */
  datatype Schema = Schema(
    tenantIdValidator: string -> bool,
    customerIdValidator: string -> bool,
    currencyValidator: string -> bool,
    configValidator: WalletConfig -> bool,   // types.WalletConfig.Validate
    defaultStatus: string,
    defaultEnvironmentId: string,
    defaultBalance: Decimal,
    defaultWalletStatus: string,
    defaultAutoTopupTrigger: string,
    defaultWalletType: string)

  /** The builder's `WalletMutation`: one optional value per column, the id,
      and whether the mutation has been applied. */
  datatype WalletMutation = WalletMutation(
    id: Option<string>,
    tenantId: Option<string>,
    status: Option<string>,
    createdAt: Option<Time>,
    updatedAt: Option<Time>,
    createdBy: Option<string>,
    updatedBy: Option<string>,
    environmentId: Option<string>,
    name: Option<string>,
    customerId: Option<string>,
    currency: Option<string>,
    description: Option<string>,
    metadata: Option<map<string, string>>,
    balance: Option<Decimal>,
    creditBalance: Option<Decimal>,
    walletStatus: Option<string>,
    autoTopupTrigger: Option<string>,
    autoTopupMinBalance: Option<Decimal>,
    autoTopupAmount: Option<Decimal>,
    walletType: Option<string>,
    conversionRate: Option<Decimal>,
    config: Option<WalletConfig>,
    done: bool)

  const EmptyMutation := WalletMutation(None, None, None, None, None, None, None, None, None, None,
                                        None, None, None, None, None, None, None, None, None, None,
                                        None, None, false)

  /** The columns of the wallet table, in the order `createSpec` visits them. */
  datatype Column =
    | TenantId | Status | CreatedAt | UpdatedAt | CreatedBy | UpdatedBy | EnvironmentId
    | Name | CustomerId | Currency | Description | Metadata | Balance | CreditBalance
    | WalletStatus | AutoTopupTrigger | AutoTopupMinBalance | AutoTopupAmount | WalletType
    | ConversionRate | Config

  const AllColumns: seq<Column> := [
    TenantId, Status, CreatedAt, UpdatedAt, CreatedBy, UpdatedBy, EnvironmentId,
    Name, CustomerId, Currency, Description, Metadata, Balance, CreditBalance,
    WalletStatus, AutoTopupTrigger, AutoTopupMinBalance, AutoTopupAmount, WalletType,
    ConversionRate, Config]

  function ColumnName(c: Column): string {
    match c
    case TenantId => "tenant_id"
    case Status => "status"
    case CreatedAt => "created_at"
    case UpdatedAt => "updated_at"
    case CreatedBy => "created_by"
    case UpdatedBy => "updated_by"
    case EnvironmentId => "environment_id"
    case Name => "name"
    case CustomerId => "customer_id"
    case Currency => "currency"
    case Description => "description"
    case Metadata => "metadata"
    case Balance => "balance"
    case CreditBalance => "credit_balance"
    case WalletStatus => "wallet_status"
    case AutoTopupTrigger => "auto_topup_trigger"
    case AutoTopupMinBalance => "auto_topup_min_balance"
    case AutoTopupAmount => "auto_topup_amount"
    case WalletType => "wallet_type"
    case ConversionRate => "conversion_rate"
    case Config => "config"
  }

  /** A column value, as handed to the insert. */
  datatype FieldValue =
    | StringValue(s: string)
    | TimeValue(t: Time)
    | DecimalValue(d: Decimal)
    | JsonMapValue(m: map<string, string>)
    | ConfigValue(c: WalletConfig)

  function MapString(o: Option<string>): Option<FieldValue> {
    match o case None => None case Some(v) => Some(StringValue(v))
  }
  function MapTime(o: Option<Time>): Option<FieldValue> {
    match o case None => None case Some(v) => Some(TimeValue(v))
  }
  function MapDecimal(o: Option<Decimal>): Option<FieldValue> {
    match o case None => None case Some(v) => Some(DecimalValue(v))
  }

  /** The mutation's value of a column (`m.TenantID()` and friends). */
  function Get(m: WalletMutation, c: Column): Option<FieldValue> {
    match c
    case TenantId => MapString(m.tenantId)
    case Status => MapString(m.status)
    case CreatedAt => MapTime(m.createdAt)
    case UpdatedAt => MapTime(m.updatedAt)
    case CreatedBy => MapString(m.createdBy)
    case UpdatedBy => MapString(m.updatedBy)
    case EnvironmentId => MapString(m.environmentId)
    case Name => MapString(m.name)
    case CustomerId => MapString(m.customerId)
    case Currency => MapString(m.currency)
    case Description => MapString(m.description)
    case Metadata => (match m.metadata case None => None case Some(v) => Some(JsonMapValue(v)))
    case Balance => MapDecimal(m.balance)
    case CreditBalance => MapDecimal(m.creditBalance)
    case WalletStatus => MapString(m.walletStatus)
    case AutoTopupTrigger => MapString(m.autoTopupTrigger)
    case AutoTopupMinBalance => MapDecimal(m.autoTopupMinBalance)
    case AutoTopupAmount => MapDecimal(m.autoTopupAmount)
    case WalletType => MapString(m.walletType)
    case ConversionRate => MapDecimal(m.conversionRate)
    case Config => (match m.config case None => None case Some(v) => Some(ConfigValue(v)))
  }

  // --------------------------------------------------------------- defaults

  /** The columns `defaults` may fill. */
  const DefaultedColumns: set<Column> :=
    {Status, CreatedAt, UpdatedAt, EnvironmentId, Balance, WalletStatus, AutoTopupTrigger, WalletType}

  function Fill<T>(o: Option<T>, v: T): Option<T> {
    if o.Some? then o else Some(v)
  }

  /** The mutation after `defaults`, with `createdAt` and `updatedAt` the
      values of `wallet.DefaultCreatedAt()` and `wallet.DefaultUpdatedAt()`. */
  function WithDefaults(m: WalletMutation, s: Schema, createdAt: Time, updatedAt: Time): WalletMutation {
    m.(status := Fill(m.status, s.defaultStatus),
       createdAt := Fill(m.createdAt, createdAt),
       updatedAt := Fill(m.updatedAt, updatedAt),
       environmentId := Fill(m.environmentId, s.defaultEnvironmentId),
       balance := Fill(m.balance, s.defaultBalance),
       walletStatus := Fill(m.walletStatus, s.defaultWalletStatus),
       autoTopupTrigger := Fill(m.autoTopupTrigger, s.defaultAutoTopupTrigger),
       walletType := Fill(m.walletType, s.defaultWalletType))
  }

  // ------------------------------------------------------------------ check

  datatype Reason = MissingRequiredField | ValidatorFailed

  /** `ValidationError{Name, err}`. */
  datatype ValidationError = ValidationError(name: string, reason: Reason)

  /** The columns `check` looks at, in the order it looks at them. */
  const CheckOrder: seq<Column> := [
    TenantId, Status, CreatedAt, UpdatedAt, CustomerId, Currency, Balance,
    CreditBalance, WalletStatus, WalletType, ConversionRate, Config]

  /** Why `check` rejects one column taken alone, if it does. */
  function ColumnFailure(m: WalletMutation, s: Schema, c: Column): Option<Reason> {
    match c
    case TenantId =>
      if m.tenantId.None? then Some(MissingRequiredField)
      else if !s.tenantIdValidator(m.tenantId.value) then Some(ValidatorFailed) else None
    case CustomerId =>
      if m.customerId.None? then Some(MissingRequiredField)
      else if !s.customerIdValidator(m.customerId.value) then Some(ValidatorFailed) else None
    case Currency =>
      if m.currency.None? then Some(MissingRequiredField)
      else if !s.currencyValidator(m.currency.value) then Some(ValidatorFailed) else None
    case Config =>
      if m.config.Some? && !s.configValidator(m.config.value) then Some(ValidatorFailed) else None
    case Status | CreatedAt | UpdatedAt | Balance | CreditBalance | WalletStatus | WalletType | ConversionRate =>
      if Get(m, c).None? then Some(MissingRequiredField) else None
    case _ => None
  }

  /** Reference reading of `check`: the first failing column of `cols`. */
  function FirstFailure(m: WalletMutation, s: Schema, cols: seq<Column>): Option<ValidationError> {
    if cols == [] then None
    else match ColumnFailure(m, s, cols[0])
      case Some(reason) => Some(ValidationError(ColumnName(cols[0]), reason))
      case None => FirstFailure(m, s, cols[1..])
  }


  /** One step of `FirstFailure`: report `c` if it fails, otherwise `rest`. */
  function Then(m: WalletMutation, s: Schema, c: Column, rest: Option<ValidationError>): Option<ValidationError> {
    match ColumnFailure(m, s, c)
    case Some(reason) => Some(ValidationError(ColumnName(c), reason))
    case None => rest
  }

  /** `WalletCreate.check` on a mutation, written as the generated cascade. */
  function CheckMutation(m: WalletMutation, s: Schema): Option<ValidationError> {
    if m.tenantId.None? then Some(ValidationError("tenant_id", MissingRequiredField))
    else if !s.tenantIdValidator(m.tenantId.value) then Some(ValidationError("tenant_id", ValidatorFailed))
    else if m.status.None? then Some(ValidationError("status", MissingRequiredField))
    else if m.createdAt.None? then Some(ValidationError("created_at", MissingRequiredField))
    else if m.updatedAt.None? then Some(ValidationError("updated_at", MissingRequiredField))
    else if m.customerId.None? then Some(ValidationError("customer_id", MissingRequiredField))
    else if !s.customerIdValidator(m.customerId.value) then Some(ValidationError("customer_id", ValidatorFailed))
    else if m.currency.None? then Some(ValidationError("currency", MissingRequiredField))
    else if !s.currencyValidator(m.currency.value) then Some(ValidationError("currency", ValidatorFailed))
    else if m.balance.None? then Some(ValidationError("balance", MissingRequiredField))
    else if m.creditBalance.None? then Some(ValidationError("credit_balance", MissingRequiredField))
    else if m.walletStatus.None? then Some(ValidationError("wallet_status", MissingRequiredField))
    else if m.walletType.None? then Some(ValidationError("wallet_type", MissingRequiredField))
    else if m.conversionRate.None? then Some(ValidationError("conversion_rate", MissingRequiredField))
    else if m.config.Some? && !s.configValidator(m.config.value) then Some(ValidationError("config", ValidatorFailed))
    else None
  }

  /** `check`'s order spelled out as a chain of single-column steps. */
  function Chain(m: WalletMutation, s: Schema): Option<ValidationError> {
    Then(m, s, TenantId, Then(m, s, Status, Then(m, s, CreatedAt, Then(m, s, UpdatedAt,
    Then(m, s, CustomerId, Then(m, s, Currency, Then(m, s, Balance, Then(m, s, CreditBalance,
    Then(m, s, WalletStatus, Then(m, s, WalletType, Then(m, s, ConversionRate,
    Then(m, s, Config, None))))))))))))
  }

  /** The cascade reports exactly the first column of `CheckOrder` that fails
      on its own. */
  lemma CheckIsFirstFailure(m: WalletMutation, s: Schema)
    ensures CheckMutation(m, s) == FirstFailure(m, s, CheckOrder)
  {
    ChainIsFirstFailure(m, s);
    CascadeIsChain(m, s);
  }

  lemma CascadeIsChain(m: WalletMutation, s: Schema)
    ensures CheckMutation(m, s) == Chain(m, s)
  {
    var tail := Then(m, s, Balance, Then(m, s, CreditBalance, Then(m, s, WalletStatus,
      Then(m, s, WalletType, Then(m, s, ConversionRate, Then(m, s, Config, None))))));
    ChainTail(m, s);
    if m.tenantId.Some? && s.tenantIdValidator(m.tenantId.value) && m.status.Some? && m.createdAt.Some?
      && m.updatedAt.Some? && m.customerId.Some? && s.customerIdValidator(m.customerId.value)
      && m.currency.Some? && s.currencyValidator(m.currency.value) {
      assert Chain(m, s) == tail;
    }
  }

  /** The last six steps of the cascade. */
  lemma ChainTail(m: WalletMutation, s: Schema)
    ensures Then(m, s, Balance, Then(m, s, CreditBalance, Then(m, s, WalletStatus,
      Then(m, s, WalletType, Then(m, s, ConversionRate, Then(m, s, Config, None))))))
      == if m.balance.None? then Some(ValidationError("balance", MissingRequiredField))
         else if m.creditBalance.None? then Some(ValidationError("credit_balance", MissingRequiredField))
         else if m.walletStatus.None? then Some(ValidationError("wallet_status", MissingRequiredField))
         else if m.walletType.None? then Some(ValidationError("wallet_type", MissingRequiredField))
         else if m.conversionRate.None? then Some(ValidationError("conversion_rate", MissingRequiredField))
         else if m.config.Some? && !s.configValidator(m.config.value) then Some(ValidationError("config", ValidatorFailed))
         else None
  {
  }

  lemma ChainIsFirstFailure(m: WalletMutation, s: Schema)
    ensures Chain(m, s) == FirstFailure(m, s, CheckOrder)
  {
    var c := CheckOrder;
    FirstFailureMiddle(m, s);
    FirstFailureTail(m, s);
    FirstFailureCons(m, s, CreatedAt, c[3..]);
    assert [CreatedAt] + c[3..] == c[2..];
    FirstFailureCons(m, s, Status, c[2..]);
    assert [Status] + c[2..] == c[1..];
    FirstFailureCons(m, s, TenantId, c[1..]);
    assert [TenantId] + c[1..] == c;
  }

  /** Columns three to eleven of `CheckOrder`, as a chain of steps. */
  lemma FirstFailureMiddle(m: WalletMutation, s: Schema)
    ensures FirstFailure(m, s, CheckOrder[3..]) ==
      Then(m, s, UpdatedAt, Then(m, s, CustomerId, Then(m, s, Currency,
      FirstFailure(m, s, CheckOrder[6..]))))
  {
    var c := CheckOrder;
    FirstFailureCons(m, s, Currency, c[6..]);
    assert [Currency] + c[6..] == c[5..];
    FirstFailureCons(m, s, CustomerId, c[5..]);
    assert [CustomerId] + c[5..] == c[4..];
    FirstFailureCons(m, s, UpdatedAt, c[4..]);
    assert [UpdatedAt] + c[4..] == c[3..];
  }

  /** The last six columns of `CheckOrder`, as a chain of steps. */
  lemma FirstFailureTail(m: WalletMutation, s: Schema)
    ensures FirstFailure(m, s, CheckOrder[6..]) ==
      Then(m, s, Balance, Then(m, s, CreditBalance, Then(m, s, WalletStatus,
      Then(m, s, WalletType, Then(m, s, ConversionRate, Then(m, s, Config, None))))))
  {
    var c := CheckOrder;
    FirstFailureCons(m, s, Config, []);
    assert [Config] + [] == c[11..];
    FirstFailureCons(m, s, ConversionRate, c[11..]);
    assert [ConversionRate] + c[11..] == c[10..];
    FirstFailureCons(m, s, WalletType, c[10..]);
    assert [WalletType] + c[10..] == c[9..];
    FirstFailureCons(m, s, WalletStatus, c[9..]);
    assert [WalletStatus] + c[9..] == c[8..];
    FirstFailureCons(m, s, CreditBalance, c[8..]);
    assert [CreditBalance] + c[8..] == c[7..];
    FirstFailureCons(m, s, Balance, c[7..]);
    assert [Balance] + c[7..] == c[6..];
  }

  lemma FirstFailureCons(m: WalletMutation, s: Schema, c: Column, rest: seq<Column>)
    ensures FirstFailure(m, s, [c] + rest) == Then(m, s, c, FirstFailure(m, s, rest))
  {
    assert ([c] + rest)[1..] == rest;
  }

  /** `FirstFailure` reports nothing exactly when no column fails, and
      otherwise the first failing column with its reason. */
  lemma {:induction false} FirstFailureSpec(m: WalletMutation, s: Schema, cols: seq<Column>)
    ensures FirstFailure(m, s, cols).None? <==> forall i :: 0 <= i < |cols| ==> ColumnFailure(m, s, cols[i]).None?
    ensures FirstFailure(m, s, cols).Some? ==>
      exists k :: 0 <= k < |cols| && ColumnFailure(m, s, cols[k]).Some?
        && FirstFailure(m, s, cols) == Some(ValidationError(ColumnName(cols[k]), ColumnFailure(m, s, cols[k]).value))
        && forall j :: 0 <= j < k ==> ColumnFailure(m, s, cols[j]).None?
  {
    if cols != [] {
      FirstFailureSpec(m, s, cols[1..]);
      if ColumnFailure(m, s, cols[0]).None? {
        if FirstFailure(m, s, cols[1..]).Some? {
          var k :| 0 <= k < |cols[1..]| && ColumnFailure(m, s, cols[1..][k]).Some?
            && FirstFailure(m, s, cols[1..]) == Some(ValidationError(ColumnName(cols[1..][k]), ColumnFailure(m, s, cols[1..][k]).value))
            && forall j :: 0 <= j < k ==> ColumnFailure(m, s, cols[1..][j]).None?;
          assert forall j :: 0 <= j < k + 1 ==> ColumnFailure(m, s, cols[j]).None? by {
            forall j | 0 <= j < k + 1 ensures ColumnFailure(m, s, cols[j]).None? {
              if j > 0 { assert cols[j] == cols[1..][j - 1]; }
            }
          }
          assert cols[k + 1] == cols[1..][k];
        } else {
          forall i | 0 <= i < |cols| ensures ColumnFailure(m, s, cols[i]).None? {
            if i > 0 { assert cols[i] == cols[1..][i - 1]; }
          }
        }
      }
    }
  }

  // -------------------------------------------------------------- defaults

  /** `defaults` never overwrites a column that was set, and touches no
      column outside `DefaultedColumns`. */
  lemma DefaultsKeepSetColumns(m: WalletMutation, s: Schema, createdAt: Time, updatedAt: Time, c: Column)
    ensures Get(m, c).Some? ==> Get(WithDefaults(m, s, createdAt, updatedAt), c) == Get(m, c)
    ensures c !in DefaultedColumns ==> Get(WithDefaults(m, s, createdAt, updatedAt), c) == Get(m, c)
    ensures c in DefaultedColumns ==> Get(WithDefaults(m, s, createdAt, updatedAt), c).Some?
    ensures WithDefaults(m, s, createdAt, updatedAt).id == m.id
    ensures WithDefaults(m, s, createdAt, updatedAt).done == m.done
  {
  }

  /** Applying the defaults a second time changes nothing. */
  lemma DefaultsIdempotent(m: WalletMutation, s: Schema, t1: Time, u1: Time, t2: Time, u2: Time)
    ensures WithDefaults(WithDefaults(m, s, t1, u1), s, t2, u2) == WithDefaults(m, s, t1, u1)
  {
  }

  /** The columns that are required but have no default: a builder that never
      set one of them cannot be saved. */
  const RequiredWithoutDefault: set<Column> := {TenantId, CustomerId, Currency, CreditBalance, ConversionRate}

  lemma MissingRequiredColumnFailsCheck(m: WalletMutation, s: Schema, createdAt: Time, updatedAt: Time, c: Column)
    requires c in RequiredWithoutDefault && Get(m, c).None?
    ensures CheckMutation(WithDefaults(m, s, createdAt, updatedAt), s).Some?
  {
  }

  /** After `defaults`, `check` never reports a defaulted column missing. */
  lemma DefaultedColumnsNeverMissing(m: WalletMutation, s: Schema, createdAt: Time, updatedAt: Time)
    ensures var r := CheckMutation(WithDefaults(m, s, createdAt, updatedAt), s);
            r.Some? && r.value.reason == MissingRequiredField ==>
              r.value.name in {"tenant_id", "customer_id", "currency", "credit_balance", "conversion_rate"}
  {
  }

  /** An absent config never makes `check` fail: the outcome is the one for
      any accepted config. */
  lemma AbsentConfigIsNeverRejected(m: WalletMutation, s: Schema, cfg: WalletConfig)
    requires m.config.None? && s.configValidator(cfg)
    ensures CheckMutation(m, s) == CheckMutation(m.(config := Some(cfg)), s)
  {
  }

  // --------------------------------------------------------- create spec

  /** A column value handed to the insert (`_spec.SetField`). */
  datatype FieldSpec = FieldSpec(column: Column, value: FieldValue)

  /** `sqlgraph.CreateSpec`: the id, if one was chosen, and the set columns. */
  datatype CreateSpec = CreateSpec(id: Option<string>, fields: seq<FieldSpec>)

  /** The `Wallet` entity returned by `Save`; unset columns hold Go's zero value. */
  datatype Wallet = Wallet(
    id: string,
    tenantId: string,
    status: string,
    createdAt: Time,
    updatedAt: Time,
    createdBy: string,
    updatedBy: string,
    environmentId: string,
    name: string,
    customerId: string,
    currency: string,
    description: string,
    metadata: map<string, string>,
    balance: Decimal,
    creditBalance: Decimal,
    walletStatus: string,
    autoTopupTrigger: Option<string>,
    autoTopupMinBalance: Option<Decimal>,
    autoTopupAmount: Option<Decimal>,
    walletType: string,
    conversionRate: Decimal,
    config: WalletConfig)

  /** Reference: the spec entry of one column, present only when the column is set. */
  function Entry(m: WalletMutation, c: Column): seq<FieldSpec> {
    match Get(m, c)
    case None => []
    case Some(v) => [FieldSpec(c, v)]
  }

  /** Reference: the spec entries of all set columns, in column order. */
  function SpecFields(m: WalletMutation): seq<FieldSpec> {
    Entry(m, TenantId) + Entry(m, Status) + Entry(m, CreatedAt) + Entry(m, UpdatedAt)
    + Entry(m, CreatedBy) + Entry(m, UpdatedBy) + Entry(m, EnvironmentId) + Entry(m, Name)
    + Entry(m, CustomerId) + Entry(m, Currency) + Entry(m, Description) + Entry(m, Metadata)
    + Entry(m, Balance) + Entry(m, CreditBalance) + Entry(m, WalletStatus)
    + Entry(m, AutoTopupTrigger) + Entry(m, AutoTopupMinBalance) + Entry(m, AutoTopupAmount)
    + Entry(m, WalletType) + Entry(m, ConversionRate) + Entry(m, Config)
  }

  /** The spec carries exactly the set columns, each with the mutation's value. */
  lemma SpecFieldsExactlySetColumns(m: WalletMutation)
    ensures forall e :: e in SpecFields(m) ==> Get(m, e.column) == Some(e.value)
    ensures forall c :: Get(m, c).Some? ==> FieldSpec(c, Get(m, c).value) in SpecFields(m)
  {
    forall e | e in SpecFields(m) ensures Get(m, e.column) == Some(e.value) {
      EntryOfSpecField(m, e);
    }
    forall c | Get(m, c).Some? ensures FieldSpec(c, Get(m, c).value) in SpecFields(m) {
      SetColumnInSpec(m, c);
    }
  }

  lemma EntryOfSpecField(m: WalletMutation, e: FieldSpec)
    requires e in SpecFields(m)
    ensures e in Entry(m, e.column) && Get(m, e.column) == Some(e.value)
  {
    EntryMembers(m);
  }

  /** An entry names its own column and carries that column's value. */
  lemma EntryMembers(m: WalletMutation)
    ensures forall c, e :: e in Entry(m, c) ==> e.column == c && Get(m, c) == Some(e.value)
  {
  }

  lemma SetColumnInSpec(m: WalletMutation, c: Column)
    requires Get(m, c).Some?
    ensures FieldSpec(c, Get(m, c).value) in SpecFields(m)
  {
    assert FieldSpec(c, Get(m, c).value) in Entry(m, c);
  }

  /** Go's zero values for the entity's columns. */
  const ZeroConfig := WalletConfig(map[])

  /** Reference: the entity `createSpec` builds from the mutation. */
  function NodeOf(m: WalletMutation): Wallet {
    Wallet(
      m.id.GetOr(""), m.tenantId.GetOr(""), m.status.GetOr(""), m.createdAt.GetOr(0), m.updatedAt.GetOr(0),
      m.createdBy.GetOr(""), m.updatedBy.GetOr(""), m.environmentId.GetOr(""), m.name.GetOr(""),
      m.customerId.GetOr(""), m.currency.GetOr(""), m.description.GetOr(""), m.metadata.GetOr(map[]),
      m.balance.GetOr(0.0), m.creditBalance.GetOr(0.0), m.walletStatus.GetOr(""),
      m.autoTopupTrigger, m.autoTopupMinBalance, m.autoTopupAmount,
      m.walletType.GetOr(""), m.conversionRate.GetOr(0.0), m.config.GetOr(ZeroConfig))
  }

  // --------------------------------------------------------------- saving

  /** The id the driver reports after the insert (`_spec.ID.Value`). */
  datatype IdValue = NoIdValue | StringId(s: string) | NonStringId

  /** What the database driver does with the insert (`sqlgraph.CreateNode`). */
  datatype DriverOutcome =
    | Inserted(generatedId: IdValue)   // id the database returns when the spec carried none
    | InsertFailed(isConstraint: bool)

  datatype SaveError =
    | Invalid(err: ValidationError)
    | ConstraintError
    | DriverError
    | UnexpectedIdType

  /** The id value after the insert: the chosen id when the spec carried one. */
  function IdAfterInsert(spec: CreateSpec, generated: IdValue): IdValue {
    if spec.id.Some? then StringId(spec.id.value) else generated
  }

  /** Reference outcome of `sqlSave` on a mutation: the result, the spec
      handed to the driver (none when `check` fails) and the mutation after. */
  function SqlSaveOutcome(m: WalletMutation, s: Schema, driver: DriverOutcome)
    : (Result<Wallet, SaveError>, Option<CreateSpec>, WalletMutation)
  {
    if CheckMutation(m, s).Some? then (Err(Invalid(CheckMutation(m, s).value)), None, m)
    else
      var spec := CreateSpec(m.id, SpecFields(m));
      match driver
      case InsertFailed(isConstraint) =>
        (Err(if isConstraint then ConstraintError else DriverError), Some(spec), m)
      case Inserted(generated) =>
        match IdAfterInsert(spec, generated)
        case NonStringId => (Err(UnexpectedIdType), Some(spec), m)
        case NoIdValue => (Ok(NodeOf(m)), Some(spec), m.(id := Some(NodeOf(m).id), done := true))
        case StringId(id) => (Ok(NodeOf(m).(id := id)), Some(spec), m.(id := Some(id), done := true))
  }

  /** A saved wallet carries every column the builder set, and the builder
      is marked done with the saved id. */
  lemma SavedWalletReflectsMutation(m: WalletMutation, s: Schema, driver: DriverOutcome)
    requires SqlSaveOutcome(m, s, driver).0.Ok?
    ensures var (r, spec, m') := SqlSaveOutcome(m, s, driver);
      CheckMutation(m, s).None? && spec.Some? && driver.Inserted?
      && m'.done && m'.id == Some(r.value.id)
      && (m.id.Some? ==> r.value.id == m.id.value)
      && r.value.(id := NodeOf(m).id) == NodeOf(m)
      && m' == m.(id := m'.id, done := true)
  {
  }

  /** `Save` writes nothing when `check` fails, and otherwise hands the
      driver exactly the set columns. */
  lemma SaveWritesOnlyCheckedMutations(m: WalletMutation, s: Schema, driver: DriverOutcome)
    ensures var (r, spec, m') := SqlSaveOutcome(m, s, driver);
      (spec.None? <==> CheckMutation(m, s).Some?)
      && (spec.Some? ==> spec.value.id == m.id
                         && (forall e :: e in spec.value.fields ==> Get(m, e.column) == Some(e.value))
                         && (forall c :: Get(m, c).Some? ==>
                               FieldSpec(c, Get(m, c).value) in spec.value.fields))
      && (r.Err? ==> m' == m)
  {
    SqlSaveSpec(m, s, driver);
    SpecFieldsExactlySetColumns(m);
  }

  /** The spec `sqlSave` hands the driver, and the mutation after a failure. */
  lemma SqlSaveSpec(m: WalletMutation, s: Schema, driver: DriverOutcome)
    ensures SqlSaveOutcome(m, s, driver).1 ==
      if CheckMutation(m, s).Some? then None else Some(CreateSpec(m.id, SpecFields(m)))
    ensures SqlSaveOutcome(m, s, driver).0.Err? ==> SqlSaveOutcome(m, s, driver).2 == m
  {
  }

  // ------------------------------------------------------------ the builder

  /** `WalletCreate`: the builder holds its mutation and updates it in place. */
  class WalletCreate {
    var mutation: WalletMutation

    constructor ()
      ensures mutation == EmptyMutation
    {
      mutation := EmptyMutation;
    }

    method SetTenantID(v: string)
      modifies this
      ensures mutation == old(mutation).(tenantId := Some(v))
    {
      mutation := mutation.(tenantId := Some(v));
    }

    method SetStatus(v: string)
      modifies this
      ensures mutation == old(mutation).(status := Some(v))
    {
      mutation := mutation.(status := Some(v));
    }

    method SetNillableStatus(v: Option<string>)
      modifies this
      ensures v.None? ==> mutation == old(mutation)
      ensures v.Some? ==> mutation == old(mutation).(status := Some(v.value))
    {
      if v.Some? { SetStatus(v.value); }
    }

    method SetCreatedAt(v: Time)
      modifies this
      ensures mutation == old(mutation).(createdAt := Some(v))
    {
      mutation := mutation.(createdAt := Some(v));
    }

    method SetNillableCreatedAt(v: Option<Time>)
      modifies this
      ensures v.None? ==> mutation == old(mutation)
      ensures v.Some? ==> mutation == old(mutation).(createdAt := Some(v.value))
    {
      if v.Some? { SetCreatedAt(v.value); }
    }

    method SetUpdatedAt(v: Time)
      modifies this
      ensures mutation == old(mutation).(updatedAt := Some(v))
    {
      mutation := mutation.(updatedAt := Some(v));
    }

    method SetNillableUpdatedAt(v: Option<Time>)
      modifies this
      ensures v.None? ==> mutation == old(mutation)
      ensures v.Some? ==> mutation == old(mutation).(updatedAt := Some(v.value))
    {
      if v.Some? { SetUpdatedAt(v.value); }
    }

    method SetCreatedBy(v: string)
      modifies this
      ensures mutation == old(mutation).(createdBy := Some(v))
    {
      mutation := mutation.(createdBy := Some(v));
    }

    method SetNillableCreatedBy(v: Option<string>)
      modifies this
      ensures v.None? ==> mutation == old(mutation)
      ensures v.Some? ==> mutation == old(mutation).(createdBy := Some(v.value))
    {
      if v.Some? { SetCreatedBy(v.value); }
    }

    method SetUpdatedBy(v: string)
      modifies this
      ensures mutation == old(mutation).(updatedBy := Some(v))
    {
      mutation := mutation.(updatedBy := Some(v));
    }

    method SetNillableUpdatedBy(v: Option<string>)
      modifies this
      ensures v.None? ==> mutation == old(mutation)
      ensures v.Some? ==> mutation == old(mutation).(updatedBy := Some(v.value))
    {
      if v.Some? { SetUpdatedBy(v.value); }
    }

    method SetEnvironmentID(v: string)
      modifies this
      ensures mutation == old(mutation).(environmentId := Some(v))
    {
      mutation := mutation.(environmentId := Some(v));
    }

    method SetNillableEnvironmentID(v: Option<string>)
      modifies this
      ensures v.None? ==> mutation == old(mutation)
      ensures v.Some? ==> mutation == old(mutation).(environmentId := Some(v.value))
    {
      if v.Some? { SetEnvironmentID(v.value); }
    }

    method SetName(v: string)
      modifies this
      ensures mutation == old(mutation).(name := Some(v))
    {
      mutation := mutation.(name := Some(v));
    }

    method SetNillableName(v: Option<string>)
      modifies this
      ensures v.None? ==> mutation == old(mutation)
      ensures v.Some? ==> mutation == old(mutation).(name := Some(v.value))
    {
      if v.Some? { SetName(v.value); }
    }

    method SetCustomerID(v: string)
      modifies this
      ensures mutation == old(mutation).(customerId := Some(v))
    {
      mutation := mutation.(customerId := Some(v));
    }

    method SetCurrency(v: string)
      modifies this
      ensures mutation == old(mutation).(currency := Some(v))
    {
      mutation := mutation.(currency := Some(v));
    }

    method SetDescription(v: string)
      modifies this
      ensures mutation == old(mutation).(description := Some(v))
    {
      mutation := mutation.(description := Some(v));
    }

    method SetNillableDescription(v: Option<string>)
      modifies this
      ensures v.None? ==> mutation == old(mutation)
      ensures v.Some? ==> mutation == old(mutation).(description := Some(v.value))
    {
      if v.Some? { SetDescription(v.value); }
    }

    method SetMetadata(v: map<string, string>)
      modifies this
      ensures mutation == old(mutation).(metadata := Some(v))
    {
      mutation := mutation.(metadata := Some(v));
    }

    method SetBalance(v: Decimal)
      modifies this
      ensures mutation == old(mutation).(balance := Some(v))
    {
      mutation := mutation.(balance := Some(v));
    }

    method SetNillableBalance(v: Option<Decimal>)
      modifies this
      ensures v.None? ==> mutation == old(mutation)
      ensures v.Some? ==> mutation == old(mutation).(balance := Some(v.value))
    {
      if v.Some? { SetBalance(v.value); }
    }

    method SetCreditBalance(v: Decimal)
      modifies this
      ensures mutation == old(mutation).(creditBalance := Some(v))
    {
      mutation := mutation.(creditBalance := Some(v));
    }

    method SetWalletStatus(v: string)
      modifies this
      ensures mutation == old(mutation).(walletStatus := Some(v))
    {
      mutation := mutation.(walletStatus := Some(v));
    }

    method SetNillableWalletStatus(v: Option<string>)
      modifies this
      ensures v.None? ==> mutation == old(mutation)
      ensures v.Some? ==> mutation == old(mutation).(walletStatus := Some(v.value))
    {
      if v.Some? { SetWalletStatus(v.value); }
    }

    method SetAutoTopupTrigger(v: string)
      modifies this
      ensures mutation == old(mutation).(autoTopupTrigger := Some(v))
    {
      mutation := mutation.(autoTopupTrigger := Some(v));
    }

    method SetNillableAutoTopupTrigger(v: Option<string>)
      modifies this
      ensures v.None? ==> mutation == old(mutation)
      ensures v.Some? ==> mutation == old(mutation).(autoTopupTrigger := Some(v.value))
    {
      if v.Some? { SetAutoTopupTrigger(v.value); }
    }

    method SetAutoTopupMinBalance(v: Decimal)
      modifies this
      ensures mutation == old(mutation).(autoTopupMinBalance := Some(v))
    {
      mutation := mutation.(autoTopupMinBalance := Some(v));
    }

    method SetNillableAutoTopupMinBalance(v: Option<Decimal>)
      modifies this
      ensures v.None? ==> mutation == old(mutation)
      ensures v.Some? ==> mutation == old(mutation).(autoTopupMinBalance := Some(v.value))
    {
      if v.Some? { SetAutoTopupMinBalance(v.value); }
    }

    method SetAutoTopupAmount(v: Decimal)
      modifies this
      ensures mutation == old(mutation).(autoTopupAmount := Some(v))
    {
      mutation := mutation.(autoTopupAmount := Some(v));
    }

    method SetNillableAutoTopupAmount(v: Option<Decimal>)
      modifies this
      ensures v.None? ==> mutation == old(mutation)
      ensures v.Some? ==> mutation == old(mutation).(autoTopupAmount := Some(v.value))
    {
      if v.Some? { SetAutoTopupAmount(v.value); }
    }

    method SetWalletType(v: string)
      modifies this
      ensures mutation == old(mutation).(walletType := Some(v))
    {
      mutation := mutation.(walletType := Some(v));
    }

    method SetNillableWalletType(v: Option<string>)
      modifies this
      ensures v.None? ==> mutation == old(mutation)
      ensures v.Some? ==> mutation == old(mutation).(walletType := Some(v.value))
    {
      if v.Some? { SetWalletType(v.value); }
    }

    method SetConversionRate(v: Decimal)
      modifies this
      ensures mutation == old(mutation).(conversionRate := Some(v))
    {
      mutation := mutation.(conversionRate := Some(v));
    }

    method SetConfig(v: WalletConfig)
      modifies this
      ensures mutation == old(mutation).(config := Some(v))
    {
      mutation := mutation.(config := Some(v));
    }

    method SetNillableConfig(v: Option<WalletConfig>)
      modifies this
      ensures v.None? ==> mutation == old(mutation)
      ensures v.Some? ==> mutation == old(mutation).(config := Some(v.value))
    {
      if v.Some? { SetConfig(v.value); }
    }

    method SetID(v: string)
      modifies this
      ensures mutation == old(mutation).(id := Some(v))
    {
      mutation := mutation.(id := Some(v));
    }

    /** `defaults`: fill each unset defaulted column. The two timestamps are
        what the schema's clock functions return. */
    method Defaults(s: Schema, createdAt: Time, updatedAt: Time)
      modifies this
      ensures mutation == WithDefaults(old(mutation), s, createdAt, updatedAt)
    {
      var status' := mutation.status;
      if status'.None? { status' := Some(s.defaultStatus); }
      var createdAt' := mutation.createdAt;
      if createdAt'.None? { createdAt' := Some(createdAt); }
      var updatedAt' := mutation.updatedAt;
      if updatedAt'.None? { updatedAt' := Some(updatedAt); }
      var environmentId' := mutation.environmentId;
      if environmentId'.None? { environmentId' := Some(s.defaultEnvironmentId); }
      var balance' := mutation.balance;
      if balance'.None? { balance' := Some(s.defaultBalance); }
      var walletStatus' := mutation.walletStatus;
      if walletStatus'.None? { walletStatus' := Some(s.defaultWalletStatus); }
      var autoTopupTrigger' := mutation.autoTopupTrigger;
      if autoTopupTrigger'.None? { autoTopupTrigger' := Some(s.defaultAutoTopupTrigger); }
      var walletType' := mutation.walletType;
      if walletType'.None? { walletType' := Some(s.defaultWalletType); }
      mutation := mutation.(
        status := status',
        createdAt := createdAt',
        updatedAt := updatedAt',
        environmentId := environmentId',
        balance := balance',
        walletStatus := walletStatus',
        autoTopupTrigger := autoTopupTrigger',
        walletType := walletType');
    }

    /** `check`. */
    function Check(s: Schema): (r: Option<ValidationError>)
      reads this
      ensures r == FirstFailure(mutation, s, CheckOrder)
    {
      CheckIsFirstFailure(mutation, s);
      CheckMutation(mutation, s)
    }

    /** One block of `createSpec`: when column `c` is set, hand it to the spec. */
    static method AddColumn(m: WalletMutation, c: Column, fields: seq<FieldSpec>)
      returns (fields': seq<FieldSpec>)
      ensures fields' == fields + Entry(m, c)
    {
      fields' := fields;
      match c
      case TenantId =>
        if m.tenantId.Some? {
          fields' := fields + [FieldSpec(TenantId, StringValue(m.tenantId.value))];
        }
      case Status =>
        if m.status.Some? {
          fields' := fields + [FieldSpec(Status, StringValue(m.status.value))];
        }
      case CreatedAt =>
        if m.createdAt.Some? {
          fields' := fields + [FieldSpec(CreatedAt, TimeValue(m.createdAt.value))];
        }
      case UpdatedAt =>
        if m.updatedAt.Some? {
          fields' := fields + [FieldSpec(UpdatedAt, TimeValue(m.updatedAt.value))];
        }
      case CreatedBy =>
        if m.createdBy.Some? {
          fields' := fields + [FieldSpec(CreatedBy, StringValue(m.createdBy.value))];
        }
      case UpdatedBy =>
        if m.updatedBy.Some? {
          fields' := fields + [FieldSpec(UpdatedBy, StringValue(m.updatedBy.value))];
        }
      case EnvironmentId =>
        if m.environmentId.Some? {
          fields' := fields + [FieldSpec(EnvironmentId, StringValue(m.environmentId.value))];
        }
      case Name =>
        if m.name.Some? {
          fields' := fields + [FieldSpec(Name, StringValue(m.name.value))];
        }
      case CustomerId =>
        if m.customerId.Some? {
          fields' := fields + [FieldSpec(CustomerId, StringValue(m.customerId.value))];
        }
      case Currency =>
        if m.currency.Some? {
          fields' := fields + [FieldSpec(Currency, StringValue(m.currency.value))];
        }
      case Description =>
        if m.description.Some? {
          fields' := fields + [FieldSpec(Description, StringValue(m.description.value))];
        }
      case Metadata =>
        if m.metadata.Some? {
          fields' := fields + [FieldSpec(Metadata, JsonMapValue(m.metadata.value))];
        }
      case Balance =>
        if m.balance.Some? {
          fields' := fields + [FieldSpec(Balance, DecimalValue(m.balance.value))];
        }
      case CreditBalance =>
        if m.creditBalance.Some? {
          fields' := fields + [FieldSpec(CreditBalance, DecimalValue(m.creditBalance.value))];
        }
      case WalletStatus =>
        if m.walletStatus.Some? {
          fields' := fields + [FieldSpec(WalletStatus, StringValue(m.walletStatus.value))];
        }
      case AutoTopupTrigger =>
        if m.autoTopupTrigger.Some? {
          fields' := fields + [FieldSpec(AutoTopupTrigger, StringValue(m.autoTopupTrigger.value))];
        }
      case AutoTopupMinBalance =>
        if m.autoTopupMinBalance.Some? {
          fields' := fields + [FieldSpec(AutoTopupMinBalance, DecimalValue(m.autoTopupMinBalance.value))];
        }
      case AutoTopupAmount =>
        if m.autoTopupAmount.Some? {
          fields' := fields + [FieldSpec(AutoTopupAmount, DecimalValue(m.autoTopupAmount.value))];
        }
      case WalletType =>
        if m.walletType.Some? {
          fields' := fields + [FieldSpec(WalletType, StringValue(m.walletType.value))];
        }
      case ConversionRate =>
        if m.conversionRate.Some? {
          fields' := fields + [FieldSpec(ConversionRate, DecimalValue(m.conversionRate.value))];
        }
      case Config =>
        if m.config.Some? {
          fields' := fields + [FieldSpec(Config, ConfigValue(m.config.value))];
        }
    }

    /** `createSpec`: the insert spec built from the set columns, and the
        entity holding the same values (`NodeOf`). */
    method BuildCreateSpec() returns (node: Wallet, spec: CreateSpec)
      ensures node == NodeOf(mutation)
      ensures spec == CreateSpec(mutation.id, SpecFields(mutation))
    {
      var m := mutation;
      node := NodeOf(m);
      var fields: seq<FieldSpec> := [];
      fields := AddColumn(m, TenantId, fields);
      assert fields == Entry(m, TenantId);
      fields := AddColumn(m, Status, fields);
      fields := AddColumn(m, CreatedAt, fields);
      fields := AddColumn(m, UpdatedAt, fields);
      fields := AddColumn(m, CreatedBy, fields);
      fields := AddColumn(m, UpdatedBy, fields);
      fields := AddColumn(m, EnvironmentId, fields);
      fields := AddColumn(m, Name, fields);
      fields := AddColumn(m, CustomerId, fields);
      fields := AddColumn(m, Currency, fields);
      fields := AddColumn(m, Description, fields);
      fields := AddColumn(m, Metadata, fields);
      fields := AddColumn(m, Balance, fields);
      fields := AddColumn(m, CreditBalance, fields);
      fields := AddColumn(m, WalletStatus, fields);
      fields := AddColumn(m, AutoTopupTrigger, fields);
      fields := AddColumn(m, AutoTopupMinBalance, fields);
      fields := AddColumn(m, AutoTopupAmount, fields);
      fields := AddColumn(m, WalletType, fields);
      fields := AddColumn(m, ConversionRate, fields);
      fields := AddColumn(m, Config, fields);
      spec := CreateSpec(m.id, fields);
    }

    /** `Save` (with no hooks registered): apply the defaults, then `sqlSave`.
        `createdAt`/`updatedAt` are the clock readings the defaults would use;
        `driver` is what the database does with the insert. */
    method Save(s: Schema, createdAt: Time, updatedAt: Time, driver: DriverOutcome)
      returns (r: Result<Wallet, SaveError>, written: Option<CreateSpec>)
      modifies this
      ensures (r, written, mutation) == SqlSaveOutcome(WithDefaults(old(mutation), s, createdAt, updatedAt), s, driver)
    {
      Defaults(s, createdAt, updatedAt);
      var err := Check(s);
      CheckIsFirstFailure(mutation, s);
      if err.Some? {
        return Err(Invalid(err.value)), None;
      }
      var node, spec := BuildCreateSpec();
      written := Some(spec);
      if driver.InsertFailed? {
        return Err(if driver.isConstraint then ConstraintError else DriverError), written;
      }
      var idValue := IdAfterInsert(spec, driver.generatedId);
      if idValue != NoIdValue {
        if idValue.StringId? {
          node := node.(id := idValue.s);
        } else {
          return Err(UnexpectedIdType), written;
        }
      }
      mutation := mutation.(id := Some(node.id), done := true);
      r := Ok(node);
    }
  }
}
