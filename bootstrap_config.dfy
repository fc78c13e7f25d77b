/**
 * The server's bootstrap configuration (`BootstrapConfig`): an immutable
 * value holding the database configuration, the tenant id and where the
 * configuration came from. Its constructor rejects a missing database
 * configuration and fills in defaults for the other two fields.
 *
 * `DBConfig` and `ConfigSource` are collaborators whose insides are not
 * modelled: they are the type parameters `D` and `S`, and their `equals`,
 * `hashCode` and `toString` are given as `JavaOps` values.
 */
module ServerConfig {
  import opened Wrappers
  import opened JavaLang

  /** The tenant id used when none, or a blank one, is given. */
  const DEFAULT_TENANT_ID: string := "DEFAULT"

  /** The message of the `MotechConfigurationException` thrown for a null database configuration. */
  const NULL_DB_CONFIG_MESSAGE: string := "DB configuration cannot be null."

  /** What a Java object of type `T` answers to `equals`, `hashCode` and `toString`. */
  datatype JavaOps<-T> = JavaOps(equals: (T, T) -> bool, hashCode: T -> Int32, toString: T -> string)

  /** The general contract of `Object.equals` and `Object.hashCode`, which every collaborator is expected to keep. */
  ghost predicate Lawful<T(!new)>(ops: JavaOps<T>)
  {
    && (forall x :: ops.equals(x, x))
    && (forall x, y :: ops.equals(x, y) ==> ops.equals(y, x))
    && (forall x, y, z :: ops.equals(x, y) && ops.equals(y, z) ==> ops.equals(x, z))
    && (forall x, y :: ops.equals(x, y) ==> ops.hashCode(x) == ops.hashCode(y))
  }

  /** The exception the constructor throws. */
  datatype ConfigurationError = MotechConfigurationException(message: string)

  datatype BootstrapConfig<D, S> = BootstrapConfig(dbConfig: D, tenantId: string, configSource: S)

  /** What every constructed `BootstrapConfig` satisfies: its tenant id is not blank. */
  predicate Normalised<D, S>(c: BootstrapConfig<D, S>)
  {
    IsNotBlank(Some(c.tenantId))
  }

  /** The default tenant id is itself not blank, so a defaulted config is normalised. */
  lemma DefaultTenantIdNotBlank()
    ensures IsNotBlank(Some(DEFAULT_TENANT_ID))
  {
    assert !IsWhitespace(DEFAULT_TENANT_ID[0]);
  }

  /**
   * The constructor `BootstrapConfig(dbConfig, tenantId, configSource)`;
   * `ui` is `ConfigSource.UI`.
   */
  function NewBootstrapConfig<D, S>(dbConfig: Option<D>, tenantId: Option<string>, configSource: Option<S>, ui: S)
    : (r: Result<BootstrapConfig<D, S>, ConfigurationError>)
    ensures dbConfig.None? <==> r == Failure(MotechConfigurationException(NULL_DB_CONFIG_MESSAGE))
    ensures r.Success? <==> dbConfig.Some?
    ensures r.Success? ==> r.value.dbConfig == dbConfig.value && Normalised(r.value)
    ensures r.Success? && IsNotBlank(tenantId) ==> r.value.tenantId == tenantId.value
    ensures r.Success? && !IsNotBlank(tenantId) ==> r.value.tenantId == DEFAULT_TENANT_ID
    ensures r.Success? && configSource.Some? ==> r.value.configSource == configSource.value
    ensures r.Success? && configSource.None? ==> r.value.configSource == ui
  {
    if dbConfig.None? then
      Failure(MotechConfigurationException(NULL_DB_CONFIG_MESSAGE))
    else
      DefaultTenantIdNotBlank();
      var tenant := if IsNotBlank(tenantId) then tenantId.value else DEFAULT_TENANT_ID;
      var source := if configSource.Some? then configSource.value else ui;
      Success(BootstrapConfig(dbConfig.value, tenant, source))
  }

  /**
   * Normalisation is idempotent: building a config again from the values a
   * built config returns through its getters gives the same config back.
   */
  lemma NormalisationIdempotent<D, S>(dbConfig: Option<D>, tenantId: Option<string>, configSource: Option<S>, ui: S)
    requires NewBootstrapConfig(dbConfig, tenantId, configSource, ui).Success?
    ensures var c := NewBootstrapConfig(dbConfig, tenantId, configSource, ui).value;
            NewBootstrapConfig(Some(c.dbConfig), Some(c.tenantId), Some(c.configSource), ui) == Success(c)
  {
  }

  /** Every normalised config is a fixed point of the constructor. */
  lemma NormalisedIsFixedPoint<D, S>(c: BootstrapConfig<D, S>, ui: S)
    requires Normalised(c)
    ensures NewBootstrapConfig(Some(c.dbConfig), Some(c.tenantId), Some(c.configSource), ui) == Success(c)
  {
  }

  /** The argument of `equals(Object o)`, as far as `equals` can tell it apart. */
  datatype EqualsArgument<D, S> =
    | NullRef                                 // o == null
    | SameRef                                 // o is this very object
    | OtherClassRef                           // o is not of class BootstrapConfig
    | ConfigRef(that: BootstrapConfig<D, S>)  // another BootstrapConfig object

  /** `equals(Object o)`. */
  function Equals<D, S>(c: BootstrapConfig<D, S>, o: EqualsArgument<D, S>, db: JavaOps<D>, src: JavaOps<S>): (b: bool)
    ensures o.SameRef? ==> b
    ensures o.NullRef? || o.OtherClassRef? ==> !b
    ensures o.ConfigRef? ==>
              (b <==> src.equals(c.configSource, o.that.configSource)
                      && db.equals(c.dbConfig, o.that.dbConfig)
                      && c.tenantId == o.that.tenantId)
  {
    match o
    case SameRef => true
    case NullRef => false
    case OtherClassRef => false
    case ConfigRef(that) =>
      if !src.equals(c.configSource, that.configSource) then false
      else if !db.equals(c.dbConfig, that.dbConfig) then false
      else if c.tenantId != that.tenantId then false
      else true
  }

  /** With lawful collaborators, `equals` between configs is reflexive, symmetric and transitive. */
  lemma EqualsIsEquivalence<D(!new), S(!new)>(a: BootstrapConfig<D, S>, b: BootstrapConfig<D, S>, c: BootstrapConfig<D, S>, db: JavaOps<D>, src: JavaOps<S>)
    requires Lawful(db) && Lawful(src)
    ensures Equals(a, ConfigRef(a), db, src)
    ensures Equals(a, ConfigRef(b), db, src) ==> Equals(b, ConfigRef(a), db, src)
    ensures Equals(a, ConfigRef(b), db, src) && Equals(b, ConfigRef(c), db, src) ==> Equals(a, ConfigRef(c), db, src)
  {
  }

  /**
   * `hashCode()`: `31 * (31 * h(dbConfig) + tenantId.hashCode()) + h(configSource)`,
   * computed as Java does, with wrap-around after each step; the result is
   * the closed form wrapped once.
   */
  function HashCode<D, S>(c: BootstrapConfig<D, S>, db: JavaOps<D>, src: JavaOps<S>): (h: Int32)
    ensures h == Wrap(961 * db.hashCode(c.dbConfig) + 31 * StringHash(c.tenantId) + src.hashCode(c.configSource))
  {
    var result := db.hashCode(c.dbConfig);
    var result := Wrap(31 * result + StringHash(c.tenantId));
    WrapMulAdd(31, 31 * db.hashCode(c.dbConfig) + StringHash(c.tenantId), src.hashCode(c.configSource));
    Wrap(31 * result + src.hashCode(c.configSource))
  }

  /** `equals` and `hashCode` are consistent: configs that are equal have equal hash codes. */
  lemma EqualConfigsHaveEqualHashCodes<D(!new), S(!new)>(c: BootstrapConfig<D, S>, o: EqualsArgument<D, S>, db: JavaOps<D>, src: JavaOps<S>)
    requires Lawful(db) && Lawful(src)
    requires o.ConfigRef? && Equals(c, o, db, src)
    ensures HashCode(c, db, src) == HashCode(o.that, db, src)
  {
  }

  const TO_STRING_PREFIX: string := "BootstrapConfig{dbConfig="
  const TENANT_ID_LABEL: string := ", tenantId='"
  const CONFIG_SOURCE_LABEL: string := "', configSource="

  /**
   * `toString()`: `BootstrapConfig{dbConfig=<db>, tenantId='<tenant>', configSource=<source>}`.
   */
  function ToString<D, S>(c: BootstrapConfig<D, S>, db: JavaOps<D>, src: JavaOps<S>): (s: string)
    ensures var d, t, k := db.toString(c.dbConfig), c.tenantId, src.toString(c.configSource);
            var p := |TO_STRING_PREFIX| + |d|;
            var q := p + |TENANT_ID_LABEL| + |t|;
            && |TO_STRING_PREFIX| == 25 && |TENANT_ID_LABEL| == 12 && |CONFIG_SOURCE_LABEL| == 16
            && |s| == q + |CONFIG_SOURCE_LABEL| + |k| + 1
            && s[..|TO_STRING_PREFIX|] == TO_STRING_PREFIX
            && s[|TO_STRING_PREFIX|..p] == d
            && s[p..p + |TENANT_ID_LABEL|] == TENANT_ID_LABEL
            && s[p + |TENANT_ID_LABEL|..q] == t
            && s[q..q + |CONFIG_SOURCE_LABEL|] == CONFIG_SOURCE_LABEL
            && s[q + |CONFIG_SOURCE_LABEL|..|s| - 1] == k
            && s[|s| - 1] == '}'
  {
    TO_STRING_PREFIX + db.toString(c.dbConfig)
    + TENANT_ID_LABEL + c.tenantId
    + CONFIG_SOURCE_LABEL + src.toString(c.configSource)
    + "}"
  }

  /**
   * The tenant id can be read back from `toString()` when the collaborators'
   * texts are known: two configs whose collaborators print alike but whose
   * tenant ids differ print differently.
   */
  lemma ToStringDistinguishesTenants<D, S>(a: BootstrapConfig<D, S>, b: BootstrapConfig<D, S>, db: JavaOps<D>, src: JavaOps<S>)
    requires db.toString(a.dbConfig) == db.toString(b.dbConfig)
    requires src.toString(a.configSource) == src.toString(b.configSource)
    requires a.tenantId != b.tenantId
    ensures ToString(a, db, src) != ToString(b, db, src)
  {
  }

  /** `getTenantId()` never returns a blank id, and `getConfigSource()` never null, once construction succeeded. */
  lemma GettersAfterConstruction<D, S>(dbConfig: Option<D>, tenantId: Option<string>, configSource: Option<S>, ui: S)
    requires dbConfig.Some?
    ensures var r := NewBootstrapConfig(dbConfig, tenantId, configSource, ui);
            r.Success? && IsNotBlank(Some(r.value.tenantId))
            && (r.value.configSource == ui || Some(r.value.configSource) == configSource)
  {
  }
}
