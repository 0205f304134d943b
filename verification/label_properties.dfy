/** Properties of `Formtastic::Label#label` and `#options_for_label` stated on
    the arguments as the caller passes them, rather than on the hash the
    helper consumes step by step. */
module LabelProperties {
  import opened Ruby
  import opened Hashes
  import opened FormtasticLabel

  /** The attributes reaching the renderer are the working options minus
      the consumed keys, kept in order; on the span path `:class` then
      defaults to "label". When the prefix raises, `:label`, `:required`
      and the prefix have already been removed, and nothing else. */
  lemma {:induction false} LabelAttributes(env: Env, field: Key, optionsOrText: Value, options: Option<seq<Entry>>)
    requires !Suppressed(optionsOrText)
    ensures
      var r := Label(env, field, optionsOrText, options);
      var w := Working(optionsOrText, options);
      var passed := Without(w, Consumed(optionsOrText));
      && (r.result.Ok? && r.result.value.BaseLabel? ==> r.options == passed)
      && (r.result.Ok? && r.result.value.Span? ==> r.options == OrAssign(passed, CLASS, Str("label")))
      && (r.result.Raise? ==> r.options == Without(w, CollapsedKeys(optionsOrText) + {REQUIRED, PREFIX}))
  {
    var w := Working(optionsOrText, options);
    var first := CollapsedKeys(optionsOrText);
    var opts := Without(w, first);
    assert Collapse(optionsOrText, options).1 == opts;
    var (decorated, rest) := DecorateText(env, field, TextArgument(optionsOrText), opts);
    WithoutWithout(w, first, {REQUIRED, PREFIX});
    assert rest == Without(w, first + {REQUIRED, PREFIX});
    if decorated.Ok? {
      var (rendering, attrs) := Dispatch(field, decorated.value, rest);
      WithoutWithout(w, first + {REQUIRED, PREFIX}, {INPUT_NAME, AS_SPAN});
      assert Without(rest, {INPUT_NAME, AS_SPAN}) == Without(w, Consumed(optionsOrText));
    }
  }

  /** What a key reads in the hash the renderer receives, given that it is
      the working options minus the consumed keys, with the span's `:class`
      default applied on the span path. */
  lemma {:induction false} PassedEntry(w: seq<Entry>, c: set<Key>, span: bool, attrs: seq<Entry>, k: Key)
    requires attrs == if span then OrAssign(Without(w, c), CLASS, Str("label")) else Without(w, c)
    requires CLASS !in c
    ensures k in c ==> Lookup(attrs, k).None?
    ensures k !in c && (k != CLASS || !span) ==> Lookup(attrs, k) == Lookup(w, k)
    ensures span ==> Get(attrs, CLASS) == if Truthy(Get(w, CLASS)) then Get(w, CLASS) else Str("label")
  {
    var passed := Without(w, c);
    assert Lookup(passed, CLASS) == Lookup(w, CLASS);
  }

  /** No consumed key reaches the renderer. */
  lemma ConsumedNotPassed(env: Env, field: Key, optionsOrText: Value, options: Option<seq<Entry>>, k: Key)
    requires !Suppressed(optionsOrText)
    requires PrefixString(Get(Working(optionsOrText, options), PREFIX)).Ok?
    requires k in Consumed(optionsOrText)
    ensures Label(env, field, optionsOrText, options).result.Ok?
    ensures Lookup(Label(env, field, optionsOrText, options).result.value.attrs, k).None?
  {
    var r := Label(env, field, optionsOrText, options);
    LabelAttributes(env, field, optionsOrText, options);
    PassedEntry(Working(optionsOrText, options), Consumed(optionsOrText), r.result.value.Span?, r.result.value.attrs, k);
  }

  /** Every option outside the consumed keys reaches the renderer with its
      value; only `:class` on the span path can differ. */
  lemma PassThrough(env: Env, field: Key, optionsOrText: Value, options: Option<seq<Entry>>, k: Key)
    requires !Suppressed(optionsOrText)
    requires PrefixString(Get(Working(optionsOrText, options), PREFIX)).Ok?
    requires k !in Consumed(optionsOrText)
    requires k != CLASS || !Truthy(Get(Working(optionsOrText, options), AS_SPAN))
    ensures Label(env, field, optionsOrText, options).result.Ok?
    ensures Lookup(Label(env, field, optionsOrText, options).result.value.attrs, k) ==
      Lookup(Working(optionsOrText, options), k)
  {
    var r := Label(env, field, optionsOrText, options);
    LabelAttributes(env, field, optionsOrText, options);
    PassedEntry(Working(optionsOrText, options), Consumed(optionsOrText), r.result.value.Span?, r.result.value.attrs, k);
  }

  /** The span keeps a truthy `:class` and otherwise gets "label". */
  lemma SpanClass(env: Env, field: Key, optionsOrText: Value, options: Option<seq<Entry>>)
    requires !Suppressed(optionsOrText)
    requires PrefixString(Get(Working(optionsOrText, options), PREFIX)).Ok?
    requires Truthy(Get(Working(optionsOrText, options), AS_SPAN))
    ensures Label(env, field, optionsOrText, options).result.Ok?
    ensures Label(env, field, optionsOrText, options).result.value.Span?
    ensures
      var given := Get(Working(optionsOrText, options), CLASS);
      Get(Label(env, field, optionsOrText, options).result.value.attrs, CLASS) ==
        if Truthy(given) then given else Str("label")
  {
    var r := Label(env, field, optionsOrText, options);
    LabelAttributes(env, field, optionsOrText, options);
    PassedEntry(Working(optionsOrText, options), Consumed(optionsOrText), true, r.result.value.attrs, CLASS);
  }

  /** When the options are a Ruby Hash, so are the attributes the renderer
      receives. */
  lemma AttributesUnique(env: Env, field: Key, optionsOrText: Value, options: Option<seq<Entry>>)
    requires !Suppressed(optionsOrText)
    requires PrefixString(Get(Working(optionsOrText, options), PREFIX)).Ok?
    requires Unique(Working(optionsOrText, options))
    ensures Label(env, field, optionsOrText, options).result.Ok?
    ensures Unique(Label(env, field, optionsOrText, options).result.value.attrs)
  {
    var w := Working(optionsOrText, options);
    LabelAttributes(env, field, optionsOrText, options);
    WithoutUnique(w, Consumed(optionsOrText));
    StoreUnique(Without(w, Consumed(optionsOrText)), CLASS, Str("label"));
  }

  /** `label(method)` with no text and no options: the localized or
      humanized name with an empty indicator, bound to `method`, with no
      attributes. */
  lemma NoConfiguration(env: Env, field: Key)
    ensures Label(env, field, Nil, None) ==
      Outcome(Ok(BaseLabel(Sym(field), LocalizedOrHumanized(env, field, Nil), [])), [])
  {
    var empty: seq<Entry> := [];
    var text := LocalizedOrHumanized(env, field, Nil);
    assert Get(empty, PREFIX) == Nil && Get(empty, REQUIRED) == Nil;
    assert "" + (text + "") == text;
    var (decorated, rest) := DecorateText(env, field, Nil, empty);
    assert decorated == Ok(text) && rest == empty;
    var (rendering, attrs) := Dispatch(field, text, empty);
    assert rendering == BaseLabel(Sym(field), text, empty);
  }

  /** `label(:authors, :input_name => :author_ids)` describes `:authors` and
      binds to `:author_ids`. */
  lemma AuthorIds(env: Env)
    ensures
      var r := Label(env, "authors", Hash([Entry(INPUT_NAME, Sym("author_ids"))]), None);
      && r.result.Ok?
      && r.result.value == BaseLabel(Sym("author_ids"), LocalizedOrHumanized(env, "authors", Nil), [])
  {
    var h := [Entry(INPUT_NAME, Sym("author_ids"))];
    assert Without(h, {LABEL}) == h;
    assert Without(h, {REQUIRED, PREFIX}) == h;
  }

  /** In the hash form the third argument is never read. */
  lemma HashFormIgnoresThirdArgument(env: Env, field: Key, entries: seq<Entry>, o1: Option<seq<Entry>>, o2: Option<seq<Entry>>)
    ensures Label(env, field, Hash(entries), o1) == Label(env, field, Hash(entries), o2)
  {
  }

  /** With literal text, a `:label => false` in the options neither
      suppresses the label nor is consumed: it reaches the renderer. */
  lemma LiteralTextKeepsLabelOption(env: Env, field: Key, text: string, options: seq<Entry>)
    requires Get(options, LABEL) == Bool(false)
    requires PrefixString(Get(options, PREFIX)).Ok?
    ensures
      var r := Label(env, field, Str(text), Some(options));
      && r.result.Ok?
      && !r.result.value.Empty?
      && Get(r.result.value.attrs, LABEL) == Bool(false)
  {
    PassThrough(env, field, Str(text), Some(options), LABEL);
  }

  /** With `:label_html` a Ruby Hash, `options_for_label` holds exactly its
      entries plus the `:label` and `:required` entries it does not
      override. */
  lemma OptionsForLabelEntries(options: seq<Entry>, html: seq<Entry>, k: Key)
    requires Lookup(options, LABEL_HTML) == Some(Hash(html))
    requires Unique(html)
    ensures OptionsForLabel(options).Ok?
    ensures Lookup(OptionsForLabel(options).value, k) ==
      if k in Keys(html) then Lookup(html, k)
      else if k == LABEL || k == REQUIRED then Lookup(options, k)
      else None
  {
    if k in Keys(html) {
      MergeFromArgument(Slice(options, [LABEL, REQUIRED]), html, k);
    }
  }

  /** A `:label => false` inside `:label_html` wins over the outer `:label`,
      so labelling with the options `options_for_label` prepares renders
      nothing. */
  lemma LabelHtmlSuppresses(env: Env, field: Key, options: seq<Entry>, html: seq<Entry>, third: Option<seq<Entry>>)
    requires Lookup(options, LABEL_HTML) == Some(Hash(html))
    requires Unique(html)
    requires Get(html, LABEL) == Bool(false)
    ensures OptionsForLabel(options).Ok?
    ensures Label(env, field, Hash(OptionsForLabel(options).value), third).result == Ok(Empty)
  {
    OptionsForLabelEntries(options, html, LABEL);
  }
}
