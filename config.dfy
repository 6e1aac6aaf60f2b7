/** QueryConfig, the option functions that build it, and the fold that applies them. */
module Config {
  import opened Wrappers

  /** RoutingControl is a uint8; only the two named constants mean anything. */
  newtype RoutingControl = x: int | 0 <= x < 256

  const Writers: RoutingControl := 0
  const Readers: RoutingControl := 1

  /** A handle on a caller-owned bookmark manager, compared by identity. */
  datatype BookmarkManager = BookmarkManager(id: nat)

  datatype QueryConfig = QueryConfig(
    routingControl: RoutingControl,
    database: string,
    impersonatedUser: string,
    bookmarkManager: Option<BookmarkManager>)  // None is Go's nil interface

  /** Go's zero QueryConfig{}: routing 0 (Writers), empty names, nil manager. */
  const ZeroConfig := QueryConfig(0, "", "", None)

  /** A QueryConfigOption is a func(*QueryConfig): the package's five option
      constructors, any other update a caller writes (Custom), or a nil func value. */
  datatype QueryConfigOption =
    | WithReadersRoutingControl
    | WithWritersRoutingControl
    | WithDatabase(db: string)
    | WithImpersonatedUser(user: string)
    | WithBookmarkManager(manager: Option<BookmarkManager>)
    | Custom(update: QueryConfig -> QueryConfig)
    | Nil
  {
    predicate IsPackageOption() { !Custom? && !Nil? }
  }

  /** Calling a nil option is a nil dereference: Go's runtime panics with this message. */
  const NilDereference := "runtime error: invalid memory address or nil pointer dereference"

  predicate NoNilOption(options: seq<QueryConfigOption>)
  {
    forall k :: 0 <= k < |options| ==> !options[k].Nil?
  }

  /** The four fields, and a uniform view of their values, so that "which field an
      option sets" can be stated once for all options. */
  datatype Field = RoutingField | DatabaseField | ImpersonatedUserField | BookmarkManagerField

  datatype FieldValue = RoutingValue(rc: RoutingControl) | NameValue(name: string) | ManagerValue(manager: Option<BookmarkManager>)

  function Get(c: QueryConfig, f: Field): FieldValue
  {
    match f
    case RoutingField => RoutingValue(c.routingControl)
    case DatabaseField => NameValue(c.database)
    case ImpersonatedUserField => NameValue(c.impersonatedUser)
    case BookmarkManagerField => ManagerValue(c.bookmarkManager)
  }

  /** The one field each package option assigns ... */
  function Target(o: QueryConfigOption): Field
    requires o.IsPackageOption()
  {
    match o
    case WithReadersRoutingControl => RoutingField
    case WithWritersRoutingControl => RoutingField
    case WithDatabase(_) => DatabaseField
    case WithImpersonatedUser(_) => ImpersonatedUserField
    case WithBookmarkManager(_) => BookmarkManagerField
  }

  /** ... and the value it assigns there. */
  function Assigned(o: QueryConfigOption): FieldValue
    requires o.IsPackageOption()
  {
    match o
    case WithReadersRoutingControl => RoutingValue(Readers)
    case WithWritersRoutingControl => RoutingValue(Writers)
    case WithDatabase(db) => NameValue(db)
    case WithImpersonatedUser(user) => NameValue(user)
    case WithBookmarkManager(m) => ManagerValue(m)
  }

  /** What `option(&queryConfig)` leaves in the struct. */
  function Apply(c: QueryConfig, o: QueryConfigOption): (r: QueryConfig)
    requires !o.Nil?
    ensures o.IsPackageOption() ==> Get(r, Target(o)) == Assigned(o)
    ensures o.IsPackageOption() ==> forall f :: f != Target(o) ==> Get(r, f) == Get(c, f)
  {
    match o
    case WithReadersRoutingControl => c.(routingControl := Readers)
    case WithWritersRoutingControl => c.(routingControl := Writers)
    case WithDatabase(db) => c.(database := db)
    case WithImpersonatedUser(user) => c.(impersonatedUser := user)
    case WithBookmarkManager(m) => c.(bookmarkManager := m)
    case Custom(update) => update(c)
  }

  /** The config after applying `options` in order to the zero value. */
  function Fold(options: seq<QueryConfigOption>): QueryConfig
    requires NoNilOption(options)
    decreases |options|
  {
    if |options| == 0 then ZeroConfig
    else
      assert NoNilOption(options[..|options| - 1]) by {
        assert forall k :: 0 <= k < |options| - 1 ==> options[..|options| - 1][k] == options[k];
      }
      Apply(Fold(options[..|options| - 1]), options[|options| - 1])
  }

  /** How the option loop ends: with the folded config, or in a panic when it calls
      the nil option at index `at`. */
  datatype Folded = Applied(config: QueryConfig) | NilOptionCalled(at: nat)

  /** The loop of ExecuteQuery that builds the config. */
  method ApplyOptions(options: seq<QueryConfigOption>) returns (folded: Folded)
    ensures folded.NilOptionCalled? <==> !NoNilOption(options)
    ensures folded.NilOptionCalled? ==>
      folded.at < |options| && options[folded.at].Nil? && NoNilOption(options[..folded.at])
    ensures folded.Applied? ==> NoNilOption(options) && folded.config == Fold(options)
  {
    var queryConfig := QueryConfig(0, "", "", None);
    for i := 0 to |options|
      invariant NoNilOption(options[..i])
      invariant queryConfig == Fold(options[..i])
    {
      if options[i].Nil? {
        return NilOptionCalled(i);
      }
      assert options[..i + 1][..i] == options[..i];
      assert NoNilOption(options[..i + 1]) by {
        assert forall k :: 0 <= k < i ==> options[..i + 1][k] == options[..i][k];
      }
      queryConfig := Apply(queryConfig, options[i]);
    }
    assert options[..|options|] == options;
    return Applied(queryConfig);
  }

  lemma NoOptionsGiveZeroConfig()
    ensures Fold([]) == QueryConfig(Writers, "", "", None)
  {
  }

  /** Last one wins: the value of a field is the one assigned by the last option
      that targets it, whatever came before. */
  lemma {:induction false} LastOptionWins(options: seq<QueryConfigOption>, f: Field, j: nat)
    requires j < |options| && options[j].IsPackageOption() && Target(options[j]) == f
    requires forall k :: j < k < |options| ==> options[k].IsPackageOption() && Target(options[k]) != f
    requires NoNilOption(options)
    ensures Get(Fold(options), f) == Assigned(options[j])
    decreases |options|
  {
    var n := |options|;
    var prefix := options[..n - 1];
    if j < n - 1 {
      assert forall k :: 0 <= k < |prefix| ==> prefix[k] == options[k];
      LastOptionWins(prefix, f, j);
    }
  }

  /** A field that no option targets keeps its zero value. */
  lemma {:induction false} UntouchedFieldKeepsZero(options: seq<QueryConfigOption>, f: Field)
    requires forall k :: 0 <= k < |options| ==> options[k].IsPackageOption() && Target(options[k]) != f
    ensures NoNilOption(options) && Get(Fold(options), f) == Get(ZeroConfig, f)
    decreases |options|
  {
    if |options| > 0 {
      var prefix := options[..|options| - 1];
      assert forall k :: 0 <= k < |prefix| ==> prefix[k] == options[k];
      UntouchedFieldKeepsZero(prefix, f);
    }
  }

  /** The package's own options can only ever store Writers or Readers. */
  lemma {:induction false} PackageOptionsKeepRoutingKnown(options: seq<QueryConfigOption>)
    requires forall k :: 0 <= k < |options| ==> options[k].IsPackageOption()
    ensures NoNilOption(options)
    ensures Fold(options).routingControl == Writers || Fold(options).routingControl == Readers
    decreases |options|
  {
    if |options| > 0 {
      var prefix := options[..|options| - 1];
      assert forall k :: 0 <= k < |prefix| ==> prefix[k] == options[k];
      PackageOptionsKeepRoutingKnown(prefix);
    }
  }
}
