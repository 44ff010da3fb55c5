/** LinkManager: link URIs of the form ardulink://<factory name>?k=v&k=v. The scheme is
    checked, the factory is found by name, and each query parameter is applied to a fresh
    link configuration through a ConfigAttributeAdapter. An attribute with choice values
    accepts only one of them. The registered factories, the bean properties of a link
    configuration, its resource bundle and Primitive.parseAs are given as values. */
module LinkManager {
  import opened JavaText

  const SCHEMA: string := "ardulink"

  /** The runtime type of an attribute; `StringLike` when a String is an instance of it. */
  datatype AttrType = StringLike | IntType | BooleanType | OtherType(name: string)

  /** The Java objects that flow through the configuration. */
  datatype Obj =
    | Null
    | Str(s: string)
    | Int(i: int)
    | Bool(b: bool)
    | Collection(items: seq<Obj>)
    | Array(items: seq<Obj>)
    | Other(className: string)

  /** One @Named property of a link configuration: its type, and what its @ChoiceFor
      property reads (None when it has no such property). */
  datatype AttrSpec = AttrSpec(attrType: AttrType, choicesFor: Option<Obj>)

  /** A registered LinkFactory: its name, the attributes and initial values of the
      configuration newLinkConfig creates, and the @I18n resource bundle, if any. */
  datatype LinkFactory = LinkFactory(
    name: string,
    attributes: map<string, AttrSpec>,
    defaults: map<string, Obj>,
    nls: Option<map<string, string>>)

  /** A java.net.URI reduced to the parts read here; None stands for null. */
  datatype Uri = Uri(scheme: Option<string>, host: Option<string>, query: Option<string>)

  // ----- the scheme -----

  /** checkSchema: the scheme must equal "ardulink" ignoring case; a null scheme fails too. */
  function CheckSchema(uri: Uri): (r: Result<Uri>)
    ensures r.Ok? ==> r.value == uri
    ensures r.Err? ==> r.error == IllegalArgument
  {
    if uri.scheme.Some? && EqualsIgnoreCase(SCHEMA, uri.scheme.value) then Ok(uri) else Err(IllegalArgument)
  }

  /** getHostFromCheckedSchema. */
  function GetHostFromCheckedSchema(uri: Uri): (r: Result<Option<string>>)
    ensures r.Ok? <==> CheckSchema(uri).Ok?
    ensures r.Ok? ==> r.value == uri.host
  {
    var checked := CheckSchema(uri);
    if checked.Ok? then Ok(checked.value.host) else Err(checked.error)
  }

  /** The scheme is accepted exactly when it is "ardulink" up to case. */
  lemma CheckSchemaIff(uri: Uri)
    ensures CheckSchema(uri).Ok? <==>
      uri.scheme.Some? && |uri.scheme.value| == 8
      && forall i :: 0 <= i < 8 ==> CharEqualsIgnoreCase(SCHEMA[i], uri.scheme.value[i])
  {
  }

  /** Upper and mixed case schemes are accepted; "http" and a missing scheme are not. */
  lemma SchemaExamples(host: Option<string>, query: Option<string>)
    ensures CheckSchema(Uri(Some("ARDULINK"), host, query)).Ok?
    ensures CheckSchema(Uri(Some("ArduLink"), host, query)).Ok?
    ensures CheckSchema(Uri(Some("http"), host, query)) == Err(IllegalArgument)
    ensures CheckSchema(Uri(None, host, query)) == Err(IllegalArgument)
  {
    assert CharEqualsIgnoreCase('a', 'A') && CharEqualsIgnoreCase('r', 'R') && CharEqualsIgnoreCase('d', 'D');
    assert CharEqualsIgnoreCase('u', 'U') && CharEqualsIgnoreCase('l', 'L') && CharEqualsIgnoreCase('i', 'I');
    assert CharEqualsIgnoreCase('n', 'N') && CharEqualsIgnoreCase('k', 'K');
  }

  // ----- the factories -----

  /** The text listURIs builds for a factory name: format("%s://%s", SCHEMA, name). */
  function UriText(name: string): string {
    SCHEMA + "://" + name
  }

  predicate IsAlphaNum(c: char) {
    ('a' <= c <= 'z') || ('A' <= c <= 'Z') || ('0' <= c <= '9')
  }

  predicate IsAlpha(c: char) {
    ('a' <= c <= 'z') || ('A' <= c <= 'Z')
  }

  /** A single host label as java.net.URI parses a server-based authority: letters,
      digits and inner dashes, starting with a letter and ending with a letter or digit.
      Names of this shape become the URI's host unchanged. */
  predicate HostName(name: string) {
    && |name| >= 1 && IsAlpha(name[0]) && IsAlphaNum(name[|name| - 1])
    && forall i :: 0 <= i < |name| ==> IsAlphaNum(name[i]) || name[i] == '-'
  }

  /** The URI listURIs expects for a factory whose name has host syntax. */
  function FactoryUri(name: string): Uri {
    Uri(Some(SCHEMA), Some(name), None)
  }

  /** What the model relies on of new URI(text), the parser being outside it: the text of
      a name with host syntax parses to scheme "ardulink", that host and no query. Other
      names may parse differently (a null host, a query after '?') or fail. */
  ghost predicate ParsesHostNames(parseUri: string -> Result<Uri>) {
    forall name :: HostName(name) ==> parseUri(UriText(name)) == Ok(FactoryUri(name))
  }

  /** listURIs: one parsed ardulink://<name> per factory, in factory order; the first text
      the parser rejects ends the listing with a RuntimeException wrapping it. */
  method ListURIs(factories: seq<LinkFactory>, parseUri: string -> Result<Uri>) returns (result: Result<seq<Uri>>)
    ensures result.Ok? <==> forall i :: 0 <= i < |factories| ==> parseUri(UriText(factories[i].name)).Ok?
    ensures result.Ok? ==> |result.value| == |factories|
    ensures result.Ok? ==> forall i :: 0 <= i < |factories| ==> result.value[i] == parseUri(UriText(factories[i].name)).value
    ensures result.Err? ==> result.error == Runtime(parseUri(UriText(factories[FirstUnparsed(factories, parseUri)].name)).error)
  {
    var uris := [];
    var i := 0;
    while i < |factories|
      invariant 0 <= i <= |factories|
      invariant |uris| == i
      invariant forall j :: 0 <= j < i ==> parseUri(UriText(factories[j].name)).Ok?
      invariant forall j :: 0 <= j < i ==> uris[j] == parseUri(UriText(factories[j].name)).value
    {
      var parsed := parseUri(UriText(factories[i].name));
      if parsed.Err? {
        FirstUnparsedIs(factories, parseUri, i);
        return Err(Runtime(parsed.error));
      }
      uris := uris + [parsed.value];
      i := i + 1;
    }
    result := Ok(uris);
  }

  /** The index of the first factory whose URI text does not parse (|factories| if none). */
  function FirstUnparsed(factories: seq<LinkFactory>, parseUri: string -> Result<Uri>): (k: nat)
    ensures k <= |factories|
    ensures k < |factories| ==> parseUri(UriText(factories[k].name)).Err?
    ensures forall j :: 0 <= j < k ==> parseUri(UriText(factories[j].name)).Ok?
    decreases |factories|
  {
    if |factories| == 0 || parseUri(UriText(factories[0].name)).Err? then 0
    else 1 + FirstUnparsed(factories[1..], parseUri)
  }

  lemma FirstUnparsedIs(factories: seq<LinkFactory>, parseUri: string -> Result<Uri>, i: nat)
    requires i < |factories| && parseUri(UriText(factories[i].name)).Err?
    requires forall j :: 0 <= j < i ==> parseUri(UriText(factories[j].name)).Ok?
    ensures FirstUnparsed(factories, parseUri) == i
    decreases i
  {
    if i > 0 {
      FirstUnparsedIs(factories[1..], parseUri, i - 1);
    }
  }

  /** With every factory name in host syntax, listURIs succeeds with ardulink://<name>
      for each factory, in order. */
  lemma {:induction false} ListedHostNames(factories: seq<LinkFactory>, parseUri: string -> Result<Uri>)
    requires ParsesHostNames(parseUri)
    requires forall i :: 0 <= i < |factories| ==> HostName(factories[i].name)
    ensures forall i :: 0 <= i < |factories| ==> parseUri(UriText(factories[i].name)) == Ok(FactoryUri(factories[i].name))
    ensures FirstUnparsed(factories, parseUri) == |factories|
    decreases |factories|
  {
    if |factories| > 0 {
      assert HostName(factories[0].name);
      ListedHostNames(factories[1..], parseUri);
    }
  }

  /** getConnectionFactory: the index of the first factory with the given name; a null
      name matches none. */
  method GetConnectionFactory(factories: seq<LinkFactory>, name: Option<string>) returns (r: Option<nat>)
    ensures r.Some? ==> r.value < |factories| && name == Some(factories[r.value].name)
    ensures r.Some? ==> forall j :: 0 <= j < r.value ==> name != Some(factories[j].name)
    ensures r.None? ==> forall j :: 0 <= j < |factories| ==> name != Some(factories[j].name)
    ensures r == FirstFactory(factories, name)
  {
    var i := 0;
    while i < |factories|
      invariant 0 <= i <= |factories|
      invariant forall j :: 0 <= j < i ==> name != Some(factories[j].name)
    {
      if name == Some(factories[i].name) {
        return Some(i);
      }
      i := i + 1;
    }
    return None;
  }

  /** The specification of the lookup: the first factory with that name. */
  function FirstFactory(factories: seq<LinkFactory>, name: Option<string>): (r: Option<nat>)
    ensures r.Some? ==> r.value < |factories| && name == Some(factories[r.value].name)
    ensures r.Some? ==> forall j :: 0 <= j < r.value ==> name != Some(factories[j].name)
    ensures r.None? ==> forall j :: 0 <= j < |factories| ==> name != Some(factories[j].name)
    decreases |factories|
  {
    if |factories| == 0 then None
    else if name == Some(factories[0].name) then Some(0)
    else
      var rest := FirstFactory(factories[1..], name);
      if rest.Some? then Some(rest.value + 1) else None
  }

  /** A URI listURIs returns for a factory whose name has host syntax passes the scheme
      check and leads back to the first factory carrying that name, which is the listed
      one or an earlier namesake. */
  lemma ListedUriResolves(factories: seq<LinkFactory>, parseUri: string -> Result<Uri>, i: nat)
    requires ParsesHostNames(parseUri)
    requires i < |factories| && HostName(factories[i].name)
    ensures parseUri(UriText(factories[i].name)).Ok?
    ensures GetHostFromCheckedSchema(parseUri(UriText(factories[i].name)).value) == Ok(Some(factories[i].name))
    ensures var k := FirstFactory(factories, Some(factories[i].name));
      k.Some? && k.value <= i && factories[k.value].name == factories[i].name
  {
    var name := factories[i].name;
    assert parseUri(UriText(name)) == Ok(FactoryUri(name));
    assert CheckSchema(FactoryUri(name)) == Ok(FactoryUri(name)) by {
      assert EqualsIgnoreCase(SCHEMA, SCHEMA);
    }
    assert FirstFactory(factories, Some(name)).Some?;
  }

  // ----- the configuration -----

  /** convert: a String is kept when the target type accepts it, otherwise it goes
      through Primitive.parseAs, given here as `parseAs`. */
  function Convert(value: string, targetType: AttrType, parseAs: (AttrType, string) -> Obj): (r: Obj)
    ensures targetType.StringLike? ==> r == Str(value)
    ensures !targetType.StringLike? ==> r == parseAs(targetType, value)
  {
    if targetType.StringLike? then Str(value) else parseAs(targetType, value)
  }

  /** loadChoiceValues on what the @ChoiceFor property read: null is rejected, a
      Collection becomes an array, anything else that is not an array is rejected. */
  function LoadChoiceValues(read: Obj): (r: Result<seq<Obj>>)
    ensures read.Null? ==> r == Err(NullPointer)
    ensures read.Collection? || read.Array? ==> r == Ok(read.items)
    ensures !(read.Null? || read.Collection? || read.Array?) ==> r == Err(IllegalState)
  {
    match read
    case Null => Err(NullPointer)
    case Collection(items) => Ok(items)
    case Array(items) => Ok(items)
    case _ => Err(IllegalState)
  }

  /** getLocalizedName: the bundle's text for the attribute's name, or null. */
  function LocalizedName(nls: Option<map<string, string>>, name: string): (r: Option<string>)
    ensures r.Some? <==> nls.Some? && name in nls.value
    ensures r.Some? ==> r.value == nls.value[name]
  {
    if nls.None? || name !in nls.value then None else Some(nls.value[name])
  }

  /** setValue on an attribute whose cache holds `cache`: the cache it ends with and the
      exception thrown, if any. A cache is loaded first when the attribute has choices
      and nothing is cached; loading failures arrive wrapped twice in RuntimeException. */
  function SetValueOutcome(spec: AttrSpec, cache: Option<seq<Obj>>, v: Obj): (r: (Option<seq<Obj>>, Option<JavaException>))
    ensures spec.choicesFor.None? && cache.None? ==> r == (None, None)
    ensures cache.Some? ==> r.0 == cache
    ensures r.1.None? && r.0.Some? ==> v in r.0.value
    ensures r.1 == Some(IllegalArgument) ==> r.0.Some? && v !in r.0.value
  {
    if spec.choicesFor.Some? && cache.None? && LoadChoiceValues(spec.choicesFor.value).Err? then
      (cache, Some(Runtime(Runtime(LoadChoiceValues(spec.choicesFor.value).error))))
    else
      var c := if spec.choicesFor.Some? && cache.None? then Some(LoadChoiceValues(spec.choicesFor.value).value) else cache;
      if c.None? || v in c.value then (c, None) else (c, Some(IllegalArgument))
  }

  /** A value is written only if the attribute has no choices or it is one of them, and
      a value outside the choices is rejected with IllegalArgumentException. */
  lemma SetValueChecksChoices(spec: AttrSpec, v: Obj)
    ensures var (_, err) := SetValueOutcome(spec, None, v);
      && (spec.choicesFor.None? ==> err.None?)
      && (err.None? && spec.choicesFor.Some? ==>
            LoadChoiceValues(spec.choicesFor.value).Ok? && v in LoadChoiceValues(spec.choicesFor.value).value)
      && ((spec.choicesFor.Some? && LoadChoiceValues(spec.choicesFor.value).Ok?
           && v !in LoadChoiceValues(spec.choicesFor.value).value) ==> err == Some(IllegalArgument))
  {
  }

  /** Once cached, the choices are used as they are: setValue does not load them again,
      and any value is checked against the cached list. */
  lemma SetValueUsesCache(spec: AttrSpec, cached: seq<Obj>, v: Obj)
    ensures SetValueOutcome(spec, Some(cached), v)
         == (Some(cached), if v in cached then None else Some(IllegalArgument))
  {
  }

  /** The bean behind a link configuration: its property values by name. */
  class LinkConfigBean {
    var values: map<string, Obj>

    constructor(values: map<string, Obj>)
      ensures this.values == values
    {
      this.values := values;
    }
  }

  class ConfigAttributeAdapter {
    const bean: LinkConfigBean
    const name: string
    const spec: AttrSpec
    const nls: Option<map<string, string>>
    var cachedChoiceValues: Option<seq<Obj>>

    constructor(bean: LinkConfigBean, name: string, spec: AttrSpec, nls: Option<map<string, string>>)
      ensures this.bean == bean && this.name == name && this.spec == spec && this.nls == nls
      ensures cachedChoiceValues.None?
    {
      this.bean := bean;
      this.name := name;
      this.spec := spec;
      this.nls := nls;
      cachedChoiceValues := None;
    }

    predicate HasChoiceValues() {
      spec.choicesFor.Some?
    }

    function GetType(): AttrType {
      spec.attrType
    }

    /** getLocalizedName: the entry for the attribute's name in its bundle, if any. */
    function GetLocalizedName(): (r: Option<string>)
      ensures r.Some? <==> nls.Some? && name in nls.value
      ensures r.Some? ==> r.value == nls.value[name]
    {
      LocalizedName(nls, name)
    }

    /** getChoiceValues: IllegalStateException without choices; otherwise the loaded
        values, which also replace the cache; a loading failure arrives wrapped. */
    method GetChoiceValues() returns (r: Result<seq<Obj>>)
      modifies this
      ensures !HasChoiceValues() ==> r == Err(IllegalState) && cachedChoiceValues == old(cachedChoiceValues)
      ensures HasChoiceValues() && LoadChoiceValues(spec.choicesFor.value).Err? ==>
        r == Err(Runtime(LoadChoiceValues(spec.choicesFor.value).error))
        && cachedChoiceValues == old(cachedChoiceValues)
      ensures HasChoiceValues() && LoadChoiceValues(spec.choicesFor.value).Ok? ==>
        r == LoadChoiceValues(spec.choicesFor.value) && cachedChoiceValues == Some(r.value)
    {
      if !HasChoiceValues() {
        return Err(IllegalState);
      }
      var loaded := LoadChoiceValues(spec.choicesFor.value);
      if loaded.Err? {
        return Err(Runtime(loaded.error));
      }
      cachedChoiceValues := Some(loaded.value);
      r := loaded;
    }

    /** setValue: load the choices into the cache if needed, then write the value when
        there are no choices or it is one of them. */
    method SetValue(v: Obj) returns (err: Option<JavaException>)
      modifies this, bean
      ensures (cachedChoiceValues, err) == SetValueOutcome(spec, old(cachedChoiceValues), v)
      ensures err.None? ==> bean.values == old(bean.values)[name := v]
      ensures err.Some? ==> bean.values == old(bean.values)
    {
      if HasChoiceValues() && cachedChoiceValues.None? {
        var loaded := GetChoiceValues();
        if loaded.Err? {
          return Some(Runtime(loaded.error));
        }
        cachedChoiceValues := Some(loaded.value);
      }
      if cachedChoiceValues.Some? && v !in cachedChoiceValues.value {
        return Some(IllegalArgument);
      }
      bean.values := bean.values[name := v];
      err := None;
    }
  }

  /** DefaultConfigurer: a factory with a fresh configuration bean. */
  class DefaultConfigurer {
    const factory: LinkFactory
    const bean: LinkConfigBean

    constructor(factory: LinkFactory)
      ensures this.factory == factory && fresh(bean) && bean.values == factory.defaults
    {
      this.factory := factory;
      bean := new LinkConfigBean(factory.defaults);
    }

    /** getAttribute: a new adapter each call; an unknown key fails the constructor's checkArgument. */
    method GetAttribute(key: string) returns (r: Result<ConfigAttributeAdapter>)
      ensures key !in factory.attributes ==> r == Err(IllegalArgument)
      ensures key in factory.attributes ==>
        r.Ok? && fresh(r.value) && r.value.bean == bean && r.value.name == key
        && r.value.spec == factory.attributes[key] && r.value.nls == factory.nls
        && r.value.cachedChoiceValues.None?
    {
      if key !in factory.attributes {
        return Err(IllegalArgument);
      }
      var a := new ConfigAttributeAdapter(bean, key, factory.attributes[key], factory.nls);
      r := Ok(a);
    }
  }

  /** What configure does to the bean's values for a list of parameters, and the
      exception that stops it, if any. Each "k=v" splitting into exactly two parts sets k
      through a fresh adapter; the others are skipped. */
  function ApplyParams(f: LinkFactory, values: map<string, Obj>, params: seq<string>,
                       parseAs: (AttrType, string) -> Obj): (r: (map<string, Obj>, Option<JavaException>))
    ensures values.Keys <= r.0.Keys
    ensures forall k :: k in r.0 && k !in values ==> k in f.attributes
    decreases |params|
  {
    if |params| == 0 then (values, None)
    else
      var split := Split(params[0], '=');
      if |split| != 2 then ApplyParams(f, values, params[1..], parseAs)
      else if split[0] !in f.attributes then (values, Some(IllegalArgument))
      else
        var spec := f.attributes[split[0]];
        var v := Convert(split[1], spec.attrType, parseAs);
        var (_, err) := SetValueOutcome(spec, None, v);
        if err.Some? then (values, err)
        else ApplyParams(f, values[split[0] := v], params[1..], parseAs)
  }

  /** configure: apply the parameters in order; the first exception ends it. */
  method Configure(configurer: DefaultConfigurer, params: seq<string>, parseAs: (AttrType, string) -> Obj)
    returns (err: Option<JavaException>)
    modifies configurer.bean
    ensures (configurer.bean.values, err) == ApplyParams(configurer.factory, old(configurer.bean.values), params, parseAs)
  {
    var i := 0;
    while i < |params|
      invariant 0 <= i <= |params|
      invariant ApplyParams(configurer.factory, old(configurer.bean.values), params, parseAs)
             == ApplyParams(configurer.factory, configurer.bean.values, params[i..], parseAs)
    {
      assert params[i..][1..] == params[i + 1..];
      var split := Split(params[i], '=');
      if |split| == 2 {
        var attribute := configurer.GetAttribute(split[0]);
        if attribute.Err? {
          return Some(attribute.error);
        }
        var e := attribute.value.SetValue(Convert(split[1], attribute.value.GetType(), parseAs));
        if e.Some? {
          return e;
        }
      }
      i := i + 1;
    }
    err := None;
  }

  /** The parameters of a URI: its query split on '&', none for a null query. */
  function Params(uri: Uri): (ps: seq<string>)
    ensures uri.query.None? ==> ps == []
    ensures forall i :: 0 <= i < |ps| ==> '&' !in ps[i]
  {
    if uri.query.None? then [] else Split(uri.query.value, '&')
  }

  /** getConfigurer: check the scheme, find the factory named by the host, configure a
      fresh configuration with the query. The checkArgument guarding the lookup gets
      listURIs() as a message argument, which Java evaluates before the check whether or
      not a factory was found: a factory name whose URI text does not parse makes every
      lookup past the scheme check fail with that wrapped parse error. */
  method GetConfigurer(factories: seq<LinkFactory>, uri: Uri, parseUri: string -> Result<Uri>,
                       parseAs: (AttrType, string) -> Obj)
    returns (r: Result<DefaultConfigurer>)
    ensures CheckSchema(uri).Err? ==> r == Err(IllegalArgument)
    ensures CheckSchema(uri).Ok? && FirstUnparsed(factories, parseUri) < |factories| ==>
      r == Err(Runtime(parseUri(UriText(factories[FirstUnparsed(factories, parseUri)].name)).error))
    ensures (CheckSchema(uri).Ok? && FirstUnparsed(factories, parseUri) == |factories|
             && FirstFactory(factories, uri.host).None?) ==> r == Err(IllegalArgument)
    ensures (CheckSchema(uri).Ok? && FirstUnparsed(factories, parseUri) == |factories|
             && FirstFactory(factories, uri.host).Some?) ==>
      var f := factories[FirstFactory(factories, uri.host).value];
      var (values, err) := ApplyParams(f, f.defaults, Params(uri), parseAs);
      if err.Some? then r == Err(err.value)
      else r.Ok? && fresh(r.value.bean) && r.value.factory == f && r.value.bean.values == values
  {
    var name := GetHostFromCheckedSchema(uri);
    if name.Err? {
      return Err(name.error);
    }
    var index := GetConnectionFactory(factories, name.value);
    var listed := ListURIs(factories, parseUri);
    if listed.Err? {
      return Err(listed.error);
    }
    if index.None? {
      return Err(IllegalArgument);
    }
    var configurer := new DefaultConfigurer(factories[index.value]);
    var err := Configure(configurer, Params(uri), parseAs);
    if err.Some? {
      return Err(err.value);
    }
    r := Ok(configurer);
  }

  // ----- properties of the configuration -----

  /** A null query applies nothing. */
  lemma NullQueryAppliesNothing(f: LinkFactory, host: Option<string>, parseAs: (AttrType, string) -> Obj)
    ensures ApplyParams(f, f.defaults, Params(Uri(Some(SCHEMA), host, None)), parseAs) == (f.defaults, None)
  {
  }

  /** A parameter that does not split into exactly two parts ("a", "a=", "a=b=c") is skipped. */
  lemma MalformedParamSkipped(f: LinkFactory, values: map<string, Obj>, param: string, rest: seq<string>,
                              parseAs: (AttrType, string) -> Obj)
    requires |Split(param, '=')| != 2
    ensures ApplyParams(f, values, [param] + rest, parseAs) == ApplyParams(f, values, rest, parseAs)
  {
    assert ([param] + rest)[1..] == rest;
  }

  /** "k=v" with k a string attribute without choices sets k to v, and the rest follows. */
  lemma StringParamApplied(f: LinkFactory, values: map<string, Obj>, k: string, v: string, rest: seq<string>,
                           parseAs: (AttrType, string) -> Obj)
    requires '=' !in k && '=' !in v && v != ""
    requires k in f.attributes && f.attributes[k] == AttrSpec(StringLike, None)
    ensures ApplyParams(f, values, [k + "=" + v] + rest, parseAs) == ApplyParams(f, values[k := Str(v)], rest, parseAs)
  {
    assert k + "=" + v == k + ['='] + v;
    SplitPair(k, v, '=');
    assert ([k + "=" + v] + rest)[1..] == rest;
  }

  /** An unknown key stops the configuration with IllegalArgumentException, keeping what
      the earlier parameters set. */
  lemma UnknownKeyRejected(f: LinkFactory, values: map<string, Obj>, k: string, v: string, rest: seq<string>,
                           parseAs: (AttrType, string) -> Obj)
    requires '=' !in k && '=' !in v && v != "" && k !in f.attributes
    ensures ApplyParams(f, values, [k + "=" + v] + rest, parseAs) == (values, Some(IllegalArgument))
  {
    assert k + "=" + v == k + ['='] + v;
    SplitPair(k, v, '=');
  }

  /** Every value configure writes is accepted by its attribute: a declared key, and one
      of its choices when it has them. */
  lemma {:induction false} AppliedValuesAllowed(f: LinkFactory, values: map<string, Obj>, params: seq<string>,
                                                parseAs: (AttrType, string) -> Obj, k: string)
    requires k in ApplyParams(f, values, params, parseAs).0
    requires k !in values || ApplyParams(f, values, params, parseAs).0[k] != values[k]
    ensures k in f.attributes
    ensures f.attributes[k].choicesFor.Some? ==>
      var loaded := LoadChoiceValues(f.attributes[k].choicesFor.value);
      loaded.Ok? && ApplyParams(f, values, params, parseAs).0[k] in loaded.value
    decreases |params|
  {
    var split := Split(params[0], '=');
    if |split| != 2 {
      AppliedValuesAllowed(f, values, params[1..], parseAs, k);
    } else {
      var spec := f.attributes[split[0]];
      var v := Convert(split[1], spec.attrType, parseAs);
      SetValueChecksChoices(spec, v);
      var values' := values[split[0] := v];
      if k in ApplyParams(f, values', params[1..], parseAs).0
         && (k !in values' || ApplyParams(f, values', params[1..], parseAs).0[k] != values'[k]) {
        AppliedValuesAllowed(f, values', params[1..], parseAs, k);
      }
    }
  }
}
