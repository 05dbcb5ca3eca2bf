/**
 * The recommendation type badge: a free-form `type` string from the generated report
 * is lower-cased and mapped onto one of the three kinds of TYPE_CONFIG (core,
 * connect, create), with the legacy names dot, dash and star as aliases and core as
 * the fallback.
 */
module Badge {
  import opened Values
  import opened Text

  /** The keys of TYPE_CONFIG. */
  datatype TypeKey = Core | Connect | Create

  /** The key as a string. */
  function KeyName(k: TypeKey): string
  {
    match k
    case Core => "core"
    case Connect => "connect"
    case Create => "create"
  }

  /** `TYPE_CONFIG[key].label`, the text shown on the badge. */
  function Label(k: TypeKey): (text: string)
    ensures Lower(text) == KeyName(k)
  {
    match k
    case Core =>
      assert Lower("Core") == "core";
      "Core"
    case Connect =>
      assert Lower("Connect") == "connect";
      "Connect"
    case Create =>
      assert Lower("Create") == "create";
      "Create"
  }

  /** `raw`: the type with null and undefined read as "", lower-cased. */
  function Raw(t: Option<string>): string
  {
    Lower(if t.Some? then t.value else "")
  }

  /** The own entries of LEGACY_MAP. */
  function LegacyAlias(raw: string): (k: Option<TypeKey>)
    ensures k.Some? <==> raw in {"dot", "dash", "star"}
  {
    if raw == "dot" then Some(Core)
    else if raw == "dash" then Some(Connect)
    else if raw == "star" then Some(Create)
    else None
  }

  /**
   * The badge's key exactly as written, None where rendering throws. `LEGACY_MAP[raw]`
   * is a plain object lookup, so it also finds what every object inherits: for the
   * lower-case names "constructor" and "__proto__" it yields a function or an object,
   * which `??` keeps; `TYPE_CONFIG[key]` is then undefined and reading `config.label`
   * throws a TypeError.
   */
  function NormalizeAsWritten(t: Option<string>): (k: Option<TypeKey>)
    ensures k.None? <==> Raw(t) in {"constructor", "__proto__"}
    ensures k == Some(Connect) <==> Raw(t) in {"connect", "dash"}
    ensures k == Some(Create) <==> Raw(t) in {"create", "star"}
  {
    var raw := Raw(t);
    if raw == "core" then Some(Core)
    else if raw == "connect" then Some(Connect)
    else if raw == "create" then Some(Create)
    else if LegacyAlias(raw).Some? then LegacyAlias(raw)
    else if raw == "constructor" || raw == "__proto__" then None
    else Some(Core)
  }

  /** The input that shows it: a recommendation whose type is "constructor". */
  lemma ConstructorTypeThrows()
    ensures NormalizeAsWritten(Some("constructor")) == None
  {
    LowerOfLowerCase("constructor");
  }

  /**
   * The badge's key with LEGACY_MAP read as the three aliases it lists: total, case
   * insensitive, each key naming itself, each legacy alias naming its key, and every
   * other type (null and undefined included) falling back to core. It agrees with
   * the code wherever the code does not throw.
   */
  function Normalize(t: Option<string>): (k: TypeKey)
    ensures k == Connect <==> Raw(t) in {"connect", "dash"}
    ensures k == Create <==> Raw(t) in {"create", "star"}
    ensures k == Core <==> Raw(t) !in {"connect", "dash", "create", "star"}
    ensures NormalizeAsWritten(t).Some? ==> NormalizeAsWritten(t) == Some(k)
  {
    var raw := Raw(t);
    if raw == "core" || raw == "connect" || raw == "create" then
      (if raw == "core" then Core else if raw == "connect" then Connect else Create)
    else if LegacyAlias(raw).Some? then LegacyAlias(raw).value
    else Core
  }

  /** Each key, written as its name or as its label in any case, names itself. */
  lemma KeyRoundTrip(k: TypeKey)
    ensures Normalize(Some(KeyName(k))) == k
    ensures Normalize(Some(Label(k))) == k
  {
    LowerOfLowerCase(KeyName(k));
  }

  /** Normalizing the name of a normalized key gives the same key. */
  lemma NormalizeIdempotent(t: Option<string>)
    ensures Normalize(Some(KeyName(Normalize(t)))) == Normalize(t)
  {
    KeyRoundTrip(Normalize(t));
  }

  /** Only the lower-cased spelling matters. */
  lemma CaseInsensitive(s: string)
    ensures Normalize(Some(Lower(s))) == Normalize(Some(s))
  {
    LowerIdempotent(s);
  }

  /** A missing type reads as the empty string, which falls back to core. */
  lemma MissingTypeIsCore()
    ensures Normalize(None) == Normalize(Some("")) == Core
  {
  }

  /** The legacy aliases. */
  lemma LegacyAliases()
    ensures Normalize(Some("dot")) == Core
    ensures Normalize(Some("dash")) == Connect
    ensures Normalize(Some("star")) == Create
  {
    assert Lower("dot") == "dot";
    assert Lower("dash") == "dash";
    assert Lower("star") == "star";
  }
}
