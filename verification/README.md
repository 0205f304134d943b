# Formtastic label helper, modelled in Dafny

This project models `Formtastic::Label`, the form builder mixin behind
`f.label`. Given a field name (`method`) and either literal text or an options
hash, `label`:

- works out the label text: it passes the literal text or the `:label` option
  to `localized_string`, and falls back to `humanized_attribute_name` when that
  gives `nil`;
- appends the required/optional indicator and prepends the nested-input prefix;
- returns one of three results: the empty string, a `<span>`, or the base
  Rails label. The base label binds to `:input_name` when that is given, and
  to the field otherwise.

The recognised options are consumed from the hash. What is left reaches the
renderer as HTML attributes. Two helpers are modelled as well:
`required_or_optional_string`, which turns a `:required` directive into
indicator text, and `options_for_label`, which builds the label-only options.

Files:

- `ruby.dfy` (module `Ruby`) has the Ruby values the helper sees. They are
  `nil`, booleans, Strings, Symbols, Procs, Hashes and other objects. The
  module also gives Ruby truthiness and `to_s`.
- `hashes.dfy` (module `Hashes`) has Ruby's insertion-ordered Hash as a
  sequence of entries. It models the Hash methods the helper uses: `[]`,
  `delete`, `[]=`, `||=`, `slice` and `merge!`.
- `label.dfy` (module `FormtasticLabel`) has the three methods of the mixin.
  `label` is split along the source's own stages: argument collapsing (lines
  30-35), text decoration (lines 36-40) and dispatch (lines 42-48).
- `label_properties.dfy` (module `LabelProperties`) holds lemmas. They state
  what `label` and `options_for_label` do in terms of the arguments exactly as
  the caller passed them.

Collaborators are fields of `FormtasticLabel.Env`, and the model treats them
as uninterpreted. They are `localized_string`, `humanized_attribute_name`, the
process-wide `required_string`/`optional_string` settings, and the inspection
string that `to_s` gives for a Hash or Proc. `template.content_tag(:span, ...)`
and `super(...)` become the `Span` and `BaseLabel` results.

Ruby mutates the options hash in place. `label` therefore returns an `Outcome`
that holds two things: the rendering (or the exception raised), and the hash as
the call leaves it. When the caller passed a hash, that is the caller's own
hash.

Points where the code's behaviour is easy to misread:

- `:input_name` overrides the binding only when it is truthy, because the code
  uses `||`. A present `nil`/`false` value falls back to `method`.
- On the span path, `:class` defaults to "label" unless its value is truthy. A
  present `nil`/`false` class is replaced, because the code uses `||=`.
- The helper is not total. A `:label_prefix_for_nested_input` that is not a
  String, `nil` or `false` is modelled as raising at `+`. In
  `options_for_label`, a `:label_html` value that is not a Hash is modelled as
  raising in `merge!`. That includes `nil`, because `fetch` supplies `{}` only
  for a missing key.
- The doc comment at `lib/formtastic/label.rb:12-13` says a false `:label`
  gives a blank string. The code checks this only in the hash form. With
  literal text, a `:label => false` in the third argument does not suppress
  the label. It is not consumed either, so it reaches the renderer.

## Model

| member | source | states |
|---|---|---|
| Hashes.Lookup | lib/formtastic/label.rb:29 | Reading a key finds a value exactly when the key is present |
| Hashes.LookupFirst | lib/formtastic/label.rb:29 | The value found is the one stored in the first entry for that key |
| Hashes.Without | lib/formtastic/label.rb:31-43 | After removing a set of keys, those keys read as missing and every other key reads as before |
| Hashes.WithoutMembers | lib/formtastic/label.rb:31-43 | Removing keys keeps exactly the entries whose key is not removed |
| Hashes.WithoutAbsent | lib/formtastic/label.rb:31-43 | Removing keys that are not present leaves the hash unchanged |
| Hashes.Delete | lib/formtastic/label.rb:31 | `Hash#delete` returns the stored value, or `nil` with the hash unchanged when the key is missing. Afterwards the key is gone and every other key reads as before |
| Hashes.Store | lib/formtastic/label.rb:44 | `Hash#[]=` makes the key read the new value and leaves other keys alone. A present key keeps its place and a new key is appended |
| Hashes.StoreUnique | lib/formtastic/label.rb:44 | Storing into a hash with unique keys keeps them unique |
| Hashes.OrAssign | lib/formtastic/label.rb:44 | `h[k] \|\|= v` keeps a truthy value (the hash is then unchanged) and otherwise stores `v`. Other keys are untouched, and a new key is appended |
| Hashes.Slice | lib/formtastic/label.rb:56 | `Hash#slice` holds exactly the requested keys that are present, with their values |
| Hashes.Merge | lib/formtastic/label.rb:56 | After `merge!`, keys the argument lacks read as in the receiver |
| Hashes.MergeFromArgument | lib/formtastic/label.rb:56 | After `merge!`, every key of the argument reads the argument's value |
| Hashes.MergeUnique | lib/formtastic/label.rb:56 | `merge!` into a hash with unique keys keeps them unique |
| Hashes.WithoutUnique | lib/formtastic/label.rb:31-43 | Removing keys from a hash with unique keys keeps them unique |
| Hashes.WithoutWithout | lib/formtastic/label.rb:31-43 | Consuming keys one `delete` after another equals removing them all at once |
| FormtasticLabel.Resolve | lib/formtastic/label.rb:72-76 | A Proc yields its result. Any other value gives its `to_s`: a String is itself, a Symbol its name, `nil` gives "", and a Hash its inspection |
| FormtasticLabel.RequiredOrOptionalString | lib/formtastic/label.rb:62-77 | `true` gives the resolved `required_string` and `false` the resolved `optional_string`. Any other value is the indicator itself: `nil` gives "", a String itself, a Proc its result, a Symbol its name, any other object its `to_s` |
| FormtasticLabel.LocalizedOrHumanized | lib/formtastic/label.rb:36 | A found translation wins, even an empty one. Only a missing translation falls back to the humanized attribute name |
| FormtasticLabel.PrefixString | lib/formtastic/label.rb:40 | A falsy prefix reads as "" and a String prefix as itself. Any other prefix is modelled as raising (see Left out) |
| FormtasticLabel.Collapse | lib/formtastic/label.rb:30-35 | The hash form takes the text from `:label` and removes that key. The literal form uses the argument as text and leaves the third argument (or `{}`) untouched |
| FormtasticLabel.DecorateText | lib/formtastic/label.rb:36-40 | The text is prefix, then resolved text, then indicator. `:required` and the prefix are consumed, and the call raises exactly when `PrefixString` does (see Left out) |
| FormtasticLabel.Dispatch | lib/formtastic/label.rb:42-48 | It renders a span exactly when `:as_span` is truthy. The base label is bound to a truthy `:input_name` or else the field. `:input_name` and `:as_span` are consumed, and the span gets the `:class` default |
| FormtasticLabel.Label | lib/formtastic/label.rb:27-49 | The result is empty exactly for the hash form with `:label => false`, and then the options are untouched. Otherwise it raises exactly when `PrefixString` does (see Left out). The text is prefix, then the localized-or-humanized text of `method`, then the indicator, all read from the options as passed. A span is rendered exactly when `:as_span` is truthy. The base label binds to a truthy `:input_name`, else to `method`. The renderer receives the hash `label` leaves behind |
| FormtasticLabel.OptionsForLabel | lib/formtastic/label.rb:55-57 | It raises exactly when `:label_html` is present but not a Hash, with `to_hash` conversion not modelled (see Left out). Without `:label_html` the result holds only the input's `:label`/`:required` entries |
| LabelProperties.LabelAttributes | lib/formtastic/label.rb:31-47 | The renderer receives the options minus the consumed keys, in order. On the span path `:class` is then defaulted. After a raise, only `:label` (hash form), `:required` and the prefix are gone |
| LabelProperties.PassedEntry | lib/formtastic/label.rb:43-47 | In the options minus the consumed keys, a consumed key is missing and every other key reads as given. With the span default, `:class` keeps a truthy value and is otherwise "label" |
| LabelProperties.ConsumedNotPassed | lib/formtastic/label.rb:31-43 | No consumed key reaches the renderer: `:required`, the prefix, `:input_name`, `:as_span`, and `:label` in the hash form |
| LabelProperties.PassThrough | lib/formtastic/label.rb:43-47 | Every key that is not consumed reaches the renderer with its value, except `:class` on the span path |
| LabelProperties.SpanClass | lib/formtastic/label.rb:44 | A span keeps a truthy given `:class` and otherwise has class "label" |
| LabelProperties.AttributesUnique | lib/formtastic/label.rb:43-47 | When the options hold each key once, so do the attributes the renderer receives |
| LabelProperties.NoConfiguration | lib/formtastic/label.rb:33-47 | `label(method)` is the base label bound to `method`. Its text is the localized-or-humanized name with an empty indicator, and it has no attributes |
| LabelProperties.AuthorIds | lib/formtastic/label.rb:15-16 | `label(:authors, :input_name => :author_ids)` describes `:authors` and binds to `:author_ids` |
| LabelProperties.HashFormIgnoresThirdArgument | lib/formtastic/label.rb:28-31 | In the hash form the third argument has no effect |
| LabelProperties.LiteralTextKeepsLabelOption | lib/formtastic/label.rb:32-34 | With literal text, `:label => false` neither suppresses the label nor is consumed. This holds on both the span and the base-label path, whenever the prefix is usable |
| LabelProperties.OptionsForLabelEntries | lib/formtastic/label.rb:56 | With a Hash `:label_html`, every key reads from `:label_html` if present there, else from the input's `:label`/`:required`, and nothing else is present |
| LabelProperties.LabelHtmlSuppresses | lib/formtastic/label.rb:56 | `:label => false` inside `:label_html` overrides the outer `:label`, so labelling with the prepared options renders nothing |

## Left out

- FormtasticLabel.PrefixString: an object whose own `+` accepts a String (a `Pathname`, say) would not raise at `lib/formtastic/label.rb:40`. The model raises for every truthy non-String prefix, because `Value` does not carry an object's methods.
- FormtasticLabel.OptionsForLabel: `merge!` converts its argument with `to_hash`, so a `:label_html` object that responds to `to_hash` (permitted `ActionController::Parameters`, say) is merged in Ruby. The model raises for every non-Hash value, because `Value` does not carry an object's conversions.
- Other exceptions: a frozen options hash raises `FrozenError` at its first `delete`, and `String#+` raises `Encoding::CompatibilityError` for incompatible encodings. The model has no frozen flag or string encodings, so neither is modelled, and the "raises exactly when" statements hold only up to these.

- HTML generation: `template.content_tag` and Rails' base `label` are foreign rendering calls, including escaping and the `<abbr>` markup. The model returns them as the tagged results `Span` and `BaseLabel`.
- Literal-text precedence: whether literal text or a `:label` String wins over an I18n translation is decided inside `localized_string`, which is uninterpreted here. The model states only that the text argument is passed to it and that `nil` falls back to `humanized_attribute_name`; it does not state that `label(:title, "Custom")` shows "Custom".
- `localized_string` and `humanized_attribute_name`: their internals (the I18n backend, string humanisation) are defined elsewhere. They are uninterpreted fields of `Env`. `localized_string` is modelled as returning a String or `nil`.
- Procs: a Proc is modelled as a pure computation that returns a fixed String. Side effects, non-termination, arity errors and a Proc returning a non-String (which would make `+=` raise) are not modelled.
- `to_s` of a Hash or Proc object is Ruby's inspection string, taken from `Env.inspect` and not modelled further.
- The third argument of `label` is modelled as `nil` or a Hash. A truthy value of another kind is a caller error, and what it raises depends on its class.
- Hash keys are Symbols, identified by name. A String key `"class"` would be a different key in Ruby and is not distinguished.
- Hash default values and default procs are not modelled. A missing key reads as `nil`.
- Determinism of repeated calls is not stated as a lemma, because every member is a pure function.
