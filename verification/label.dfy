/** `Formtastic::Label`: the form builder's `label` helper, which resolves a
    field's label text, appends the required/optional indicator, and renders
    either nothing, a `<span>`, or the base Rails label bound to a field. */
module FormtasticLabel {
  import opened Ruby
  import opened Hashes

  /** The option keys the helper recognises. */
  const LABEL: Key := "label"
  const REQUIRED: Key := "required"
  const PREFIX: Key := "label_prefix_for_nested_input"
  const INPUT_NAME: Key := "input_name"
  const AS_SPAN: Key := "as_span"
  const CLASS: Key := "class"
  const LABEL_HTML: Key := "label_html"

  /** The collaborators the helper calls but does not define: the I18n lookup
      `localized_string(method, text, :label)` (None for `nil`), the fallback
      `humanized_attribute_name(method)`, the process-wide `required_string`
      and `optional_string` settings, and the inspection that `to_s` prints
      for a Hash or Proc. */
  datatype Env = Env(
    localizedString: (Key, Value) -> Option<string>,
    humanizedAttributeName: Key -> string,
    requiredString: Value,
    optionalString: Value,
    inspect: Value -> string)

  /** What `label` returns: the empty string, `template.content_tag(:span,
      text, attrs)`, or the base renderer `super(name, text, attrs)`. */
  datatype Rendering =
    | Empty
    | Span(text: string, attrs: seq<Entry>)
    | BaseLabel(name: Value, text: string, attrs: seq<Entry>)

  /** The result of one call together with the options hash as `label`
      leaves it: the caller's own hash in the hash form and when a third
      argument is given, since Ruby consumes options in place. */
  datatype Outcome = Outcome(result: Result<Rendering>, options: seq<Entry>)

  /** The second half of `required_or_optional_string`: a Proc is called,
      anything else is converted with `to_s`. */
  function Resolve(stringOrProc: Value, inspect: Value -> string): (r: string)
    ensures stringOrProc.Proc? ==> r == stringOrProc.result
    ensures stringOrProc.Str? ==> r == stringOrProc.s
    ensures stringOrProc.Nil? ==> r == ""
    ensures !stringOrProc.Proc? ==> r == ToS(stringOrProc, inspect)
  {
    match stringOrProc
    case Proc(result) => result
    case _ => ToS(stringOrProc, inspect)
  }

  /** `required_or_optional_string(required)`: `true` selects the configured
      required indicator, `false` the optional one, and any other value is
      the indicator itself. */
  function RequiredOrOptionalString(env: Env, required: Value): (r: string)
    ensures required == Bool(true) ==> r == Resolve(env.requiredString, env.inspect)
    ensures required == Bool(false) ==> r == Resolve(env.optionalString, env.inspect)
    ensures required.Nil? ==> r == ""
    ensures required.Str? ==> r == required.s
    ensures required.Proc? ==> r == required.result
    ensures required.Sym? ==> r == required.name
    ensures required.Other? ==> r == required.repr
    ensures !required.Bool? ==> r == Resolve(required, env.inspect)
  {
    var stringOrProc :=
      match required
      case Bool(true) => env.requiredString
      case Bool(false) => env.optionalString
      case _ => required;
    Resolve(stringOrProc, env.inspect)
  }

  /** `localized_string(method, text, :label) || humanized_attribute_name(method)`. */
  function LocalizedOrHumanized(env: Env, field: Key, text: Value): (r: string)
    ensures env.localizedString(field, text).Some? ==> r == env.localizedString(field, text).value
    ensures env.localizedString(field, text).None? ==> r == env.humanizedAttributeName(field)
  {
    env.localizedString(field, text).GetOr(env.humanizedAttributeName(field))
  }

  /** `(prefix || "")` as the left operand of `+ text`: a falsy prefix reads
      as "", a String as itself, and any other value is taken to have no `+`
      that accepts a String, so the call raises. */
  function PrefixString(prefix: Value): (r: Result<string>)
    ensures r.Ok? <==> !Truthy(prefix) || prefix.Str?
    ensures r.Ok? && prefix.Str? ==> r.value == prefix.s
    ensures r.Ok? && !prefix.Str? ==> r.value == ""
  {
    if !Truthy(prefix) then Ok("")
    else if prefix.Str? then Ok(prefix.s)
    else Raise("prefix does not support + with a String")
  }

  /** Lines 30-35 of `label`: in the hash form the text is taken out of the
      `:label` entry; otherwise the second argument is the text and the
      options default to `{}`. The second component is the options hash
      afterwards. */
  function Collapse(optionsOrText: Value, options: Option<seq<Entry>>): (r: (Value, seq<Entry>))
    ensures r.0 == TextArgument(optionsOrText)
    ensures r.1 == Without(Working(optionsOrText, options), CollapsedKeys(optionsOrText))
  {
    if optionsOrText.Hash? then
      Delete(optionsOrText.entries, LABEL)
    else
      WithoutAbsent(options.GetOr([]), {});
      (optionsOrText, options.GetOr([]))
  }

  /** Lines 36-40 of `label`: the resolved text with the indicator appended
      and the nested-input prefix prepended, consuming `:required` and
      `:label_prefix_for_nested_input`; the second component is the options
      hash afterwards. */
  function DecorateText(env: Env, field: Key, text: Value, opts: seq<Entry>): (r: (Result<string>, seq<Entry>))
    ensures r.1 == Without(opts, {REQUIRED, PREFIX})
    ensures r.0.Ok? <==> PrefixString(Get(opts, PREFIX)).Ok?
    ensures r.0.Ok? ==>
      r.0.value ==
        PrefixString(Get(opts, PREFIX)).value
        + (LocalizedOrHumanized(env, field, text) + RequiredOrOptionalString(env, Get(opts, REQUIRED)))
  {
    var resolved := LocalizedOrHumanized(env, field, text);
    var (required, opts1) := Delete(opts, REQUIRED);
    assert required == Get(opts, REQUIRED);
    var decorated := resolved + RequiredOrOptionalString(env, required);
    var (prefix, opts2) := Delete(opts1, PREFIX);
    assert Lookup(opts1, PREFIX) == Lookup(opts, PREFIX);
    assert prefix == Get(opts, PREFIX);
    WithoutWithout(opts, {REQUIRED}, {PREFIX});
    assert {REQUIRED} + {PREFIX} == {REQUIRED, PREFIX};
    match PrefixString(prefix)
    case Raise(message) => (Raise(message), opts2)
    case Ok(prefixText) => (Ok(prefixText + decorated), opts2)
  }

  /** Lines 42-48 of `label`: consumes `:input_name` and `:as_span`, then
      renders a span (defaulting its `:class` to "label") or calls the base
      renderer bound to `:input_name` or `field`; the second component is the
      options hash afterwards, which is the hash the renderer receives. */
  function Dispatch(field: Key, text: string, opts: seq<Entry>): (r: (Rendering, seq<Entry>))
    ensures r.0.Span? <==> Truthy(Get(opts, AS_SPAN))
    ensures !r.0.Empty? && r.0.text == text && r.0.attrs == r.1
    ensures r.0.BaseLabel? ==>
      r.0.name == (if Truthy(Get(opts, INPUT_NAME)) then Get(opts, INPUT_NAME) else Sym(field))
      && r.1 == Without(opts, {INPUT_NAME, AS_SPAN})
    ensures r.0.Span? ==> r.1 == OrAssign(Without(opts, {INPUT_NAME, AS_SPAN}), CLASS, Str("label"))
  {
    var (inputName, opts3) := Delete(opts, INPUT_NAME);
    var name := if Truthy(inputName) then inputName else Sym(field);
    var (asSpan, opts4) := Delete(opts3, AS_SPAN);
    WithoutWithout(opts, {INPUT_NAME}, {AS_SPAN});
    assert {INPUT_NAME} + {AS_SPAN} == {INPUT_NAME, AS_SPAN};
    if Truthy(asSpan) then
      var attrs := OrAssign(opts4, CLASS, Str("label"));
      (Span(text, attrs), attrs)
    else
      (BaseLabel(name, text, opts4), opts4)
  }

  /** `label(method, options_or_text, options)`: collapses the overloaded
      arguments, stops at `:label => false` in the hash form, and otherwise
      decorates the text and dispatches. */
  function Label(env: Env, field: Key, optionsOrText: Value, options: Option<seq<Entry>>): (r: Outcome)
    ensures r.result == Ok(Empty) <==> Suppressed(optionsOrText)
    ensures Suppressed(optionsOrText) ==> r.options == optionsOrText.entries
    ensures !Suppressed(optionsOrText) ==>
      (r.result.Raise? <==> PrefixString(Get(Working(optionsOrText, options), PREFIX)).Raise?)
    ensures r.result.Ok? && !r.result.value.Empty? ==> r.result.value.attrs == r.options
    ensures r.result.Ok? && !r.result.value.Empty? ==>
      (r.result.value.Span? <==> Truthy(Get(Working(optionsOrText, options), AS_SPAN)))
    ensures r.result.Ok? && !r.result.value.Empty? ==>
      var w := Working(optionsOrText, options);
      r.result.value.text ==
        PrefixString(Get(w, PREFIX)).value
        + (LocalizedOrHumanized(env, field, TextArgument(optionsOrText))
           + RequiredOrOptionalString(env, Get(w, REQUIRED)))
    ensures r.result.Ok? && r.result.value.BaseLabel? ==>
      var inputName := Get(Working(optionsOrText, options), INPUT_NAME);
      r.result.value.name == if Truthy(inputName) then inputName else Sym(field)
  {
    if optionsOrText.Hash? && Get(optionsOrText.entries, LABEL) == Bool(false) then
      Outcome(Ok(Empty), optionsOrText.entries)
    else
      var (text, opts) := Collapse(optionsOrText, options);
      assert Get(opts, REQUIRED) == Get(Working(optionsOrText, options), REQUIRED);
      assert Get(opts, PREFIX) == Get(Working(optionsOrText, options), PREFIX);
      var (decorated, rest) := DecorateText(env, field, text, opts);
      match decorated
      case Raise(message) => Outcome(Raise(message), rest)
      case Ok(labelText) =>
        assert Get(rest, INPUT_NAME) == Get(Working(optionsOrText, options), INPUT_NAME);
        assert Get(rest, AS_SPAN) == Get(Working(optionsOrText, options), AS_SPAN);
        var (rendering, attrs) := Dispatch(field, labelText, rest);
        Outcome(Ok(rendering), attrs)
  }

  // How the two-argument overload collapses, stated on the arguments as given.

  /** The hash form with `:label => false` renders nothing. */
  predicate Suppressed(optionsOrText: Value) {
    optionsOrText.Hash? && Get(optionsOrText.entries, LABEL) == Bool(false)
  }

  /** The options hash `label` works on: the second argument when it is a
      Hash, otherwise the third, `{}` when that is nil. */
  function Working(optionsOrText: Value, options: Option<seq<Entry>>): seq<Entry> {
    if optionsOrText.Hash? then optionsOrText.entries else options.GetOr([])
  }

  /** The text argument: the `:label` entry in the hash form, otherwise the
      second argument itself. */
  function TextArgument(optionsOrText: Value): Value {
    if optionsOrText.Hash? then Get(optionsOrText.entries, LABEL) else optionsOrText
  }

  /** The key consumed while collapsing the arguments: `:label`, in the
      hash form only. */
  function CollapsedKeys(optionsOrText: Value): set<Key> {
    if optionsOrText.Hash? then {LABEL} else {}
  }

  /** The set of keys `label` consumes on its way to rendering. */
  function Consumed(optionsOrText: Value): set<Key> {
    CollapsedKeys(optionsOrText) + {REQUIRED, PREFIX} + {INPUT_NAME, AS_SPAN}
  }

  /** `options_for_label(options)`: the `:label` and `:required` entries,
      overlaid with the entries of `:label_html`. A present `:label_html`
      that is not a Hash (`nil` included, since `fetch` only defaults a
      missing key) makes `merge!` raise. */
  function OptionsForLabel(options: seq<Entry>): (r: Result<seq<Entry>>)
    ensures r.Raise? <==> LABEL_HTML in Keys(options) && !Lookup(options, LABEL_HTML).value.Hash?
    ensures LABEL_HTML !in Keys(options) ==>
      forall k :: Lookup(r.value, k) == if k == LABEL || k == REQUIRED then Lookup(options, k) else None
  {
    var sliced := Slice(options, [LABEL, REQUIRED]);
    match Lookup(options, LABEL_HTML)
    case None => Ok(sliced)
    case Some(Hash(html)) => Ok(Merge(sliced, html))
    case Some(_) => Raise("no implicit conversion into Hash")
  }
}
