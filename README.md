# Bancha scaffolding, modelled in Dafny

Bancha's scaffolding builds Ext JS panel configurations from a data model's
metadata:

- `Bancha.scaffold.Util` supplies the helpers: humanized labels, the store
  cache, display fields, association names and button placeholders.
- `Bancha.scaffold.Grid` turns the model's fields into grid columns. It adds
  editors for editable grids and a delete column.
- `Bancha.scaffold.Form` turns the fields into form fields. Validation rules
  become field settings, foreign keys become comboboxes, and a file rule
  makes the form an upload form.
- `Bancha.grid.ManagementPanel` builds one scaffolded grid tab per model. Its
  buttons follow what the model's proxy can do.

This project models that core:

- Ext configuration objects are maps from property names to `Value`s.
- `Ext.apply(target, config, defaults)` is `Values.Apply`.
- The debug build's `IFDEBUG` checks hang on a `Mode` parameter. A debug
  `Ext.Error.raise` is an `Err` with its own error kind. A JavaScript crash
  (reading a property of `undefined`, calling a missing method) is
  `Err(TypeError)`.
- State that the library updates in place is imperative:
  - the `getStore` closure cache is `Stores.StoreCache`;
  - the model's `validations` is an `array<Rule>`, whose file rules have
    their extension wrapped into a list;
  - the button array is rewritten slot by slot;
  - `ManagementPanel.items` grows one tab at a time.
- Each method is proved against a specification function. The properties of
  those functions are proved as lemmas.

The modules follow the library's structure:

| module | file | models |
|---|---|---|
| `Values` | values.dfy | values, `Ext.apply`, truthiness |
| `Naming` | naming.dfy | `toFirstUpper`, `humanize`, `humanizeClassName`, `toTitle` |
| `Schema` | schema.dfy | model metadata, `getDisplayFieldName`, `fieldNameToModelAssociationName`, `getBelongsToAssociation` |
| `Stores` | stores.dfy | `getStore` |
| `Buttons` | buttons.dfy | `replaceButtonPlaceHolders` |
| `Defaults` | defaults.dfy | the per-call/singleton defaults layering, the `exclude` check |
| `FormRules` | form_rules.dfy | `addValidationRuleConfigs` |
| `FormScaffold` | form.dfy | `buildDefaultFieldFromModelType`, `internalTransformFieldConfig`, `buildFieldConfig` |
| `GridScaffold` | grid.dfy | `buildDefaultColumnFromModelType`, `internalTransformColumnConfig`, `buildColumnConfig` |
| `GridBuild` | grid_build.dfy | `Grid.buildColumns`, `Grid.buildConfig` |
| `FormBuild` | form_build.dfy | `Form.buildConfig`, `buildButtonScope` |
| `Management` | management.dfy | `ManagementPanel.initComponent` |

The model follows the code where the library's own description says
something else:

- `humanize` deletes every `_id` in the string, not only a trailing one.
- `humanize` is not idempotent: `aBC` gives `A bC`, and humanizing that
  again gives `A b c` (`Naming.HumanizeNotIdempotent`).
- In the production build, a `format` rule on a field that is not a text
  field still sets the field's `vtype`. Only `length` and `numberformat`
  skip such fields.

## Model

| member | source | states |
|---|---|---|
| Values.Apply | src/scaffold.js:976 | `Ext.apply`: the result has the keys of all three objects; `config` wins over `defaults`, and `defaults` wins over the target |
| Naming.ToFirstUpper | src/scaffold.js:86-94 | a non-string is returned unchanged; the empty string crashes; otherwise the first character is upper-cased and the rest is kept |
| Naming.Humanize | src/scaffold.js:107-114 | humanize fails exactly when nothing is left after deleting every `_id` |
| Naming.HumanizeHasNoUnderscore | src/scaffold.js:107-114 | a humanized string never contains an underscore |
| Naming.HumanizeOfPlainText | src/scaffold.js:107-114 | text with no underscore and no lower-then-upper pair is only capitalised, as for "John Smith" |
| Naming.HumanizeUserId | tests/spec/javascripts/Bancha.scaffold.UtilSpec.js:36 | `user_id` humanizes to `User` |
| Naming.HumanizeUnderscored | tests/spec/javascripts/Bancha.scaffold.UtilSpec.js:39 | `user_name` humanizes to `User name` |
| Naming.HumanizeCamelCase | tests/spec/javascripts/Bancha.scaffold.UtilSpec.js:43 | `userName` humanizes to `User name` |
| Naming.HumanizeLowerUser | tests/spec/javascripts/Bancha.scaffold.UtilSpec.js:33 | `user` humanizes to `User` |
| Naming.HumanizeUser | tests/spec/javascripts/Bancha.scaffold.UtilSpec.js:55 | `User`, the last segment of `Bancha.model.User`, humanizes to itself |
| Naming.HumanizeManyUnderscores | tests/spec/javascripts/Bancha.scaffold.UtilSpec.js:40 | `name_with_many_spaces` humanizes to `Name with many spaces` |
| Naming.HumanizeManyCamelWords | tests/spec/javascripts/Bancha.scaffold.UtilSpec.js:44 | `nameWithManySpaces` humanizes to `Name with many spaces` |
| Naming.HumanizeNotIdempotent | src/scaffold.js:107-114 | humanizing `aBC` twice differs from humanizing it once |
| Naming.HumanizeClassNameTakesLastSegment | src/scaffold.js:126-132 | a dotted class name not starting with a dot is humanized from its last segment |
| Naming.HumanizeClassNameWithoutNamespace | src/scaffold.js:126-132 | a class name without a dot is humanized whole |
| Naming.HumanizeClassNameLeadingDot | src/scaffold.js:126-132 | a class name starting with a dot is humanized whole, since `indexOf` gives the falsy 0 |
| Naming.HumanizeClassNameExample | tests/spec/javascripts/Bancha.scaffold.UtilSpec.js:55 | `Bancha.model.User` gives `User` |
| Naming.HumanizeClassNameAwesomeClass | tests/spec/javascripts/Bancha.scaffold.UtilSpec.js:60 | `Bancha.model.AwesomeClass` gives `Awesome class` |
| Naming.ToTitlePointwise | src/scaffold.js:140-144 | toTitle keeps the length and upper-cases exactly the lower-case letters that follow a space |
| Schema.JoinSplit | src/scaffold.js:299 | splitting at `_` and joining with `_` gives back the field name |
| Schema.SplitJoin | src/scaffold.js:299 | joining underscore-free parts and splitting again gives the parts back |
| Schema.FieldNameToModelAssociationName | src/scaffold.js:294-311 | the pop/shift/capitalize loop computes the association-name specification |
| Schema.PopAndCamelCase | src/scaffold.js:303-309 | the name is the first part followed by the capitalized middle parts, with the trailing `id` dropped |
| Schema.AssociationNameDefinedIff | src/scaffold.js:295-302 | a string field name has an association name exactly when it ends in `_id` |
| Schema.AssociationNameOfForeignKey | src/scaffold.js:299-310 | `w1_w2_..._id` maps to `w1W2...` for belongsTo and to that name plus `s` otherwise |
| Schema.BookAuthorExample | src/scaffold.js:286-310 | `book_author_id` gives `bookAuthor` for belongsTo and `bookAuthors` for hasMany |
| Schema.GetDisplayFieldName | src/scaffold.js:261-283 | a string `displayField` wins; otherwise the first of `name`, `title`, `code` among the fields; otherwise exactly `idProperty` when it is truthy, else the first field's name, else `undefined` for a model without fields |
| Schema.BelongsToAssociationNeedsForeignKey | src/scaffold.js:319-326 | an association is found only for a `_id` field name, and it is the one registered under the derived name |
| Stores.StoreClass | src/scaffold.js:239 | the store class is `storeDefaultClass` when truthy, else `Ext.data.Store` |
| Stores.StoreSettings | src/scaffold.js:239-241 | the store settings are the store defaults plus `model`, set to the model name unless the defaults set it |
| Stores.StoreCache.constructor | src/scaffold.js:230 | the cache starts empty |
| Stores.StoreCache.GetStore | src/scaffold.js:229-249 | a shared-store call returns the cached store of the model if there is one; otherwise a fresh store with the class and settings above, cached only for a shared-store call; cached entries never change |
| Stores.SharedStoreIsReused | src/scaffold.js:235-245 | two shared-store calls for one model give the same store and leave the cache as after the first |
| Stores.SharedStoreTwice | src/scaffold.js:229-249 | calling getStore twice with `oneStorePerModel` returns one store |
| Buttons.PlaceholderButton | src/scaffold.js:193-210 | a `create`/`reset`/`save` placeholder becomes its button config with `scope` and the matching handler applied over it |
| Buttons.ReplacedEntry | src/scaffold.js:191-216 | an `undefined` entry crashes; a placeholder becomes its button; an object whose scope is `scaffold-scope-me` gets the scope and keeps the rest; anything else is kept |
| Buttons.ConfigAfterChangesOnlyUsedButtons | src/scaffold.js:193-210 | only the button configs of placeholders in the list are changed in the configuration |
| Buttons.PlaceholderButtonStable | src/scaffold.js:193-210 | applying the scope and handler again to an already-updated config changes nothing |
| Buttons.ReplaceButtonPlaceHolders | src/scaffold.js:186-219 | in place: each slot before the first `undefined` is replaced as above and the rest stay; it crashes iff there is an `undefined`; the button configs it updates are exactly those of the placeholders it met |
| Buttons.ConfigWithButtons | src/scaffold.js:1005-1014 | the configuration after replacement: crash iff the list has an `undefined`; otherwise each button is its replacement, and a non-list is kept; the form's call at src/scaffold.js:1714-1715 reaches it through `Buttons.BuildButtons` |
| Buttons.PlaceholderButtonShared | src/scaffold.js:193-210 | a replaced placeholder is the very object stored back under its button-config key, carrying the scope and handler |
| Buttons.BuildButtons | src/scaffold.js:1714-1715 | running the in-place replacement on a copy of `buttons` gives `ConfigWithButtons` |
| Defaults.Pick | src/scaffold.js:532-534 | a per-call setting is used when truthy, otherwise the singleton's |
| Defaults.BuildDefault | src/scaffold.js:529-536 | fails exactly for an unknown model type or non-object generic defaults; the type's table entry wins over all defaults |
| Defaults.BuildDefaultLayered | src/scaffold.js:535 | the result layers the generic defaults, then the type defaults, then the table entry |
| Defaults.PerCallTypeDefaultsReplace | src/scaffold.js:534 | per-call type defaults replace the singleton's entirely, with no merge |
| Defaults.PerCallDefaultsOverrideSingleton | src/scaffold.js:532-534 | with both per-call settings present, the singleton has no effect |
| Defaults.Merge | src/scaffold.js:976 | the per-call configuration over the singleton's settings |
| Defaults.TargetName | src/scaffold.js:979 | the target name when `target` is a string, else the empty name (a class given as target is not represented; see Left out) |
| Defaults.Targeted | src/scaffold.js:976-979 | the merged configuration with `target` normalised to a name |
| Defaults.CheckExclude | src/scaffold.js:894-903 | a non-array `exclude` raises in debug and is reset to `[]` in production; an array is kept; nothing else changes |
| Defaults.KeptMembers | src/scaffold.js:906-911 | the kept fields are exactly the model's fields whose names are not excluded |
| Defaults.KeptAll | src/scaffold.js:906-911 | with nothing excluded, every field is kept in order |
| FormRules.VtypeOf | src/scaffold.js:1276-1296 | the alpha, alphanum, email and url matchers map to the vtypes `alpha`, `alphanum`, `email` and `url`; any other matcher maps to none |
| FormRules.LengthRule | src/scaffold.js:1246-1265 | on a text field, the defined min/max set `minLength`/`maxLength`; on another field it raises in debug and changes nothing in production |
| FormRules.FormatRule | src/scaffold.js:1266-1297 | raises in debug on a non-text field; otherwise a known matcher sets `vtype` and an unknown one changes nothing |
| FormRules.NumberFormatRule | src/scaffold.js:1298-1319 | on a number field, the defined min/max/precision set `minValue`/`maxValue`/`decimalPrecision`; on another it raises in debug and changes nothing in production |
| FormRules.FileRule | src/scaffold.js:1320-1333 | the field becomes a `fileuploadfield` with the upload defaults applied; a string or list extension sets `vtype` `fileExtension` and the extension list |
| FormRules.ApplyRule | src/scaffold.js:1238-1342 | a rule for another field changes nothing; a rule raises exactly in debug when its kind needs a text or number field and the field is not one; a `presence` rule sets `allowBlank` to false; an unknown kind changes nothing |
| FormRules.ApplyRuleByKind | src/scaffold.js:1246-1333 | a `length`, `format`, `numberformat` or `file` rule of the field is handled by that kind's own step |
| FormRules.PresenceMakesRequired | src/scaffold.js:1243-1245 | after the pass, a field with a `presence` rule has `allowBlank` false unless the upload defaults set it |
| FormRules.ApplyRuleFrame | src/scaffold.js:1238-1342 | one rule only adds or changes the keys its kind touches |
| FormRules.RuleAfter | src/scaffold.js:1326-1328 | the rule after use: a file rule of this field has its string extension wrapped into a list; every other rule is unchanged |
| FormRules.Applied | src/scaffold.js:1238-1342 | the pass stops at the first rule that raises and succeeds iff none does |
| FormRules.RulesOfOtherFieldsIgnored | src/scaffold.js:1239-1241 | rules that name other fields leave the field unchanged |
| FormRules.RulesNeverRaiseInProduction | src/scaffold.js:1246-1342 | in the production build no rule list makes the pass fail |
| FormRules.FieldAfterRulesAppend | src/scaffold.js:1238 | the pass over two rule lists is the pass over the first followed by the pass over the second |
| FormRules.RulesStableUnderRewrite | src/scaffold.js:1326-1328 | rules whose extension was already wrapped by an earlier field give the same field |
| FormRules.RaiseEndsPass | src/scaffold.js:1238-1342 | a rule that raises ends the pass with that error |
| FormRules.RulesKeepUntouched | src/scaffold.js:1238-1342 | keys no rule kind touches keep their value through the pass |
| FormRules.FileRuleMakesUpload | src/scaffold.js:1320-1333 | a field with a file rule ends as a `fileuploadfield` |
| FormRules.AddValidationRuleConfigs | src/scaffold.js:1234-1345 | the in-place pass gives the rule-pass result; the rules it reached are rewritten by `RuleAfter` and the rest are untouched |
| FormScaffold.FieldTable | src/scaffold.js:1123-1148 | exactly the seven model types have a field entry; `int` alone disallows decimals |
| FormScaffold.BuildDefaultField | src/scaffold.js:1355-1362 | fails iff the type is unknown or the defaults are not an object; the xtype is the table's |
| FormScaffold.BaseField | src/scaffold.js:1374-1390 | the field has the model field's name; outside editors it has the humanized label, and a date field with a format gets that format |
| FormScaffold.WithAssociation | src/scaffold.js:1399-1407 | a foreign-key field becomes a local combobox over the store, with the display field and the id property (or `id`) as value field |
| FormScaffold.LinkedField | src/scaffold.js:1398-1407 | only a field with a belongsTo association is changed |
| FormScaffold.InternalTransformField | src/scaffold.js:1207-1213 | a field named `id` becomes a `hiddenfield`; any other is unchanged |
| FormScaffold.InternalTransformFieldIdempotent | src/scaffold.js:1207-1213 | the transform is idempotent |
| FormScaffold.DropEditorUpload | src/scaffold.js:1416-1418 | an upload field inside an editor becomes `undefined` |
| FormScaffold.FieldConfig | src/scaffold.js:1374-1421 | fails exactly when the base field or the rule pass fails; a form field is an object; an editor field is an object or `undefined` |
| FormScaffold.FieldConfigInProduction | src/scaffold.js:1374-1421 | in production only the base field can make it fail |
| FormScaffold.FieldConfigUnderRewrittenRules | src/scaffold.js:1394 | rules rewritten by an earlier field do not change the field built |
| FormScaffold.RuledFieldKeeps | src/scaffold.js:1382-1395 | keys the rules do not touch keep their base-field value |
| FormScaffold.RuledFieldName | src/scaffold.js:1382-1395 | the rule pass keeps the field's name |
| FormScaffold.FieldLabelledWithName | src/scaffold.js:1384 | a form field is labelled with its humanized name |
| FormScaffold.IdFieldIsHidden | src/scaffold.js:1410 | the `id` field is hidden |
| FormScaffold.ForeignKeyFieldIsCombobox | src/scaffold.js:1398-1407 | a belongsTo field is a combobox over the association's store |
| FormScaffold.EditorDropsUploadField | src/scaffold.js:1416-1418 | an editor for a field with a file rule is `undefined` |
| FormScaffold.RunFieldRules | src/scaffold.js:1374-1395 | the base field plus the in-place rule pass computes `RuledField` |
| FormScaffold.BuildFieldConfig | src/scaffold.js:1374-1421 | computes `FieldConfig`; uses the store cache exactly when the field has an association |
| GridScaffold.ColumnTable | src/scaffold.js:408-432 | exactly the seven model types have a column entry; `int` alone has a format |
| GridScaffold.TablesCoverSameTypes | src/scaffold.js:408-432 | columns and fields know the same model types |
| GridScaffold.BuildDefaultColumn | src/scaffold.js:529-536 | fails iff the type is unknown or the defaults are not an object; the xtype is the table's |
| GridScaffold.BaseColumn | src/scaffold.js:549-561 | a named field gets its humanized header text and its `dataIndex` |
| GridScaffold.Renderer | src/scaffold.js:571-576 | the renderer captures the association store and display field |
| GridScaffold.LinkedColumn | src/scaffold.js:563-589 | only a belongsTo field's column gets a renderer |
| GridScaffold.ColumnListeners | src/scaffold.js:579-588 | a belongsTo field chains a refresh after the existing `render` listener, or after an empty function |
| GridScaffold.EditorFormConfig | src/scaffold.js:593-597 | the editor's form settings are the grid's `formConfig` over the form defaults, with the grid's store settings |
| GridScaffold.EditorFieldAsWritten | src/scaffold.js:599-602 | as written: an `undefined` editor crashes the id transform |
| GridScaffold.EditorField | src/scaffold.js:599-602 | corrected: the id transform is applied only to an editor that is an object |
| GridScaffold.EditorFieldKeepsEditor | src/scaffold.js:599-602 | the transform leaves an already-transformed editor unchanged |
| GridScaffold.ColumnEditor | src/scaffold.js:592-606 | the editor fails exactly when building the editor field fails |
| GridScaffold.ColumnEditorAsWritten | src/scaffold.js:592-606 | as written, the editor fails at least when building the field fails |
| GridScaffold.InternalTransformColumn | src/scaffold.js:513-520 | the `id` column is hidden and loses its editor; any other is unchanged |
| GridScaffold.InternalTransformColumnIdempotent | src/scaffold.js:513-520 | the transform is idempotent |
| GridScaffold.FinishedColumn | src/scaffold.js:592-614 | an editable column gets its editor unless it is the hidden `id` column |
| GridScaffold.ColumnConfig | src/scaffold.js:549-615 | the column: the base column, linked, given its editor and transformed; the editor transform is the corrected one of the finding at 599-602 |
| GridScaffold.ColumnConfigAsWritten | src/scaffold.js:549-615 | the column as written, with the crashing editor transform |
| GridScaffold.AsWrittenAgreesWhenItSucceeds | src/scaffold.js:599-602 | where the as-written column builds, it equals the corrected one |
| GridScaffold.UploadEditorDropped | src/scaffold.js:599-602 | for an upload field, the as-written editor crashes and the corrected editor is `undefined` |
| GridScaffold.UploadEditorCrashesAsWritten | src/scaffold.js:599-602 | in an editable grid, a field with a file rule makes the as-written column crash |
| GridScaffold.UploadColumnHasNoEditor | src/scaffold.js:592-606 | corrected: that column builds and has no editor |
| GridScaffold.FinishedWithoutEditor | src/scaffold.js:592-606 | an `undefined` editor leaves the column without an editor |
| GridScaffold.IdColumnHidden | src/scaffold.js:609 | the `id` column is hidden and has no editor |
| GridScaffold.ColumnConfigUnderRewrittenRules | src/scaffold.js:599 | rules rewritten by an earlier column do not change the column |
| GridScaffold.LinkColumn | src/scaffold.js:549-589 | builds the linked column and listeners, and uses the store cache exactly for an association |
| GridScaffold.BuildColumnConfig | src/scaffold.js:549-615 | computes `ColumnConfig` (with the corrected editor transform); runs the in-place rule pass exactly for an editable grid; the column's and the editor's stores come from the store cache (`ColumnStoresOutcome`) |
| GridScaffold.EditedColumn | src/scaffold.js:590-614 | the editor of an editable grid, its rule pass and its store from the cache; then the `id` transform |
| GridScaffold.BuildEditor | src/scaffold.js:592-606 | computes `ColumnEditor`, runs the rule pass with the editor's settings, and takes the store of its association from the cache |
| GridBuild.RemergeKeepsConfig | src/scaffold.js:869 | merging the defaults again into the already merged configuration changes nothing |
| GridBuild.ColumnsPrepared | src/scaffold.js:872-903 | a missing model raises in debug and crashes in production; otherwise the `exclude` check |
| GridBuild.ListenersWithoutForeignKeys | src/scaffold.js:579-588 | without foreign keys, the grid listeners are unchanged |
| GridBuild.ColumnFailureIgnoresStores | src/scaffold.js:549-615 | a column that fails does so whatever the stores |
| GridBuild.BuildColumnLoop | src/scaffold.js:905-913 | one column per kept field, in order, stopping at the first failure; after a complete loop every rule of a kept field went through its editor's pass, and even after a failure each rule is as it was or wrapped once |
| GridBuild.DestroyColumn | src/scaffold.js:915-921 | the destroy column is a copy of `destroyButtonConfig` whose first item's empty handler becomes `onDelete`; a missing first item crashes |
| GridBuild.TrailingColumns | src/scaffold.js:915-921 | a deletable grid ends with the destroy column; otherwise nothing is added |
| GridBuild.BuildColumns | src/scaffold.js:866-924 | all columns (with the corrected editor transform), or the first error of the check, the loop or the destroy column; the model's rules are those after the editors' passes when it succeeds, and each is as it was or wrapped once on every path |
| GridBuild.GridScope | src/scaffold.js:1007-1014 | the button scope exposes `getCellEditing` and `getStore` |
| GridBuild.Toolbar | src/scaffold.js:1017-1022 | the bottom toolbar holds the buttons |
| GridBuild.GridPanel | src/scaffold.js:984-1032 | the panel has the scaffold config, the store and the columns; the initial panel config wins over all else except `scaffold` |
| GridBuild.EditableGridHasCellEditing | src/scaffold.js:995-1003 | an editable grid uses the cell-editing plugin |
| GridBuild.ButtonsAreDocked | src/scaffold.js:1005-1023 | buttons are docked in one toolbar |
| GridBuild.BuildConfig | src/scaffold.js:974-1036 | the grid panel (with the corrected editor transform), or the first error of the columns or buttons; the grid's store is the model's shared store from the cache or a fresh store with the grid's settings, and is in the cache when shared; an editable grid gets a fresh `Ext.grid.plugin.CellEditing` with `clicksToEdit: 2`; on success the target model's rules are those after the editors' passes, on every path each of its rules is as it was or wrapped once, and every other model's rule array is unchanged; the store cache only grows |
| GridBuild.GridStore | src/scaffold.js:986 | the grid's store: the target model's shared store from the cache, or a fresh store with the grid's settings, cached when shared |
| GridBuild.TargetColumns | src/scaffold.js:990 | the columns of the target model (`None` for an unknown target) with the rule rewrite of `BuildColumns`, and no other model's rule array changed |
| GridBuild.StoreAndColumns | src/scaffold.js:986-992 | the grid's store fetched before the columns are built: the store facts of `GridStore` survive the column build, and the rule facts of `TargetColumns` hold from before the store fetch |
| GridBuild.Panel | src/scaffold.js:994-1032 | the cell-editing plugin exactly for an editable grid, the buttons with their scope, and the panel around store, columns and listeners |
| FormBuild.Prepared | src/scaffold.js:1668-1684 | the merged configuration after the `exclude` check |
| FormBuild.BuildFields | src/scaffold.js:1690-1696 | one field per kept model field, in order, stopping at the first failure; every rule is rewritten by each field it met |
| FormBuild.FindUpload | src/scaffold.js:1700-1707 | finds an upload field iff the list has one |
| FormBuild.FileFieldMakesUploadForm | src/scaffold.js:1320-1333 | a field with a file rule is an upload field, so the form becomes an upload form |
| FormBuild.FormScope | src/scaffold.js:1595-1610 | the button scope carries the panel id |
| FormBuild.RecordLoader | src/scaffold.js:1732-1742 | the loader captures the record to load |
| FormBuild.LoadRecordHook | src/scaffold.js:1730-1750 | with `loadRecord` set, the loader is added as `afterrender`, after an existing listener; otherwise nothing changes |
| FormBuild.RecordLoaderRunsLast | src/scaffold.js:1744-1749 | the loader runs after any existing `afterrender` listener |
| FormBuild.PanelBase | src/scaffold.js:1700-1727 | the panel has items, id (from the initial config or a fresh one), the upload mark and the scaffold config; the initial config wins |
| FormBuild.FormPanel | src/scaffold.js:1717-1750 | the panel plus the load hook |
| FormBuild.BuildConfig | src/scaffold.js:1665-1754 | the form panel, or the first error of the `exclude` check, the missing model, the fields or the buttons; only this model's rules are rewritten |
| Management.Entries | src/grid/ManagementPanel.js:63-68 | the models walked: an array's entries, one non-array value, or none for a falsy value |
| Management.ApiButtons | src/grid/ManagementPanel.js:84-95 | a spacer, then `create` iff create is supported, then `reset` and `save` iff create or update is; the exact list for each case |
| Management.TabScaffold | src/grid/ManagementPanel.js:72-105 | the tab's scaffold: the api sets the supported buttons and deletability; a writer without an api drops `buttons` |
| Management.Tab | src/grid/ManagementPanel.js:72-82 | a grid panel titled after the class name |
| Management.TabFor | src/grid/ManagementPanel.js:68-82 | a tab per entry; an unknown model or an empty humanized name crashes |
| Management.WriterTabGetsGridButtons | src/grid/ManagementPanel.js:102-105 | a writer-only tab shows the grid's default buttons |
| Management.PushedTabs | src/grid/ManagementPanel.js:68-108 | the tabs pushed before the first failing entry, and that failure |
| Management.PushedStopsAtFailure | src/grid/ManagementPanel.js:68-108 | entries after a failure push nothing |
| Management.ManagementPanel.constructor | src/grid/ManagementPanel.js:49-52 | the panel starts with the given models and items |
| Management.ManagementPanel.InitComponent | src/grid/ManagementPanel.js:53-111 | debug rejects a non-array `models`; otherwise a falsy `models` becomes `[]` and one tab per entry is appended to `items` until the first failure |

## Left out

- The button handlers `onCreate`, `onSave`, `onReset` and `onDelete` of the
  grid and the form are left out. They run against live Ext stores and forms
  after the configuration is built. They appear only as the values copied
  into the configuration.
- `buildApiConfig` and `buildBanchaApiConfig` are left out. They read the
  Ext.Direct proxy. The form's `api` is a parameter of
  `FormBuild.BuildConfig`.
- `createFacade` is left out. It is deprecated and builds closures only.
- The user hooks are the identity. These are `beforeBuild`, `afterBuild`,
  `transformColumnConfig` and `transformFieldConfig`, which the library
  leaves empty by default.
- The bodies of the renderer and the render, load and afterrender listeners
  are opaque closures. Only what they capture is modelled.
- `Ext.id`, `Ext.create` and `Ext.clone` are handled as follows:
  - a fresh id is a parameter;
  - a created store or plugin is a fresh `Instance`;
  - clones are values.
- The `ManagementPanel`'s parent `callParent` (the Ext tab panel) is left
  out.
- Format matchers are compared as their source text. Regular-expression
  semantics are not modelled.
- The `console.warn` calls for unknown rules and matchers have no effect
  here.
- Case mapping is ASCII only. Non-ASCII letters are never treated as upper
  or lower case.
- Stores.StoreCache.GetStore: the model's class name is the model's `name`
  string.
- Defaults.BuildDefault: truthy generic defaults that are not an object are
  treated as a crash. In JavaScript, `Ext.apply` onto a primitive would not
  throw.
- Buttons.ConfigWithButtons: a truthy `buttons` value that is not a list is
  passed through unchanged. A string's characters are not walked.
- GridBuild.HasButtons: the grid's `config.buttons && config.buttons.length`
  guard is decided for lists, strings and plain objects (by their `length`
  property). A function's `length` is its arity and an Ext instance's is
  whatever it defines; the model has neither, so such `buttons` never get a
  toolbar (src/scaffold.js:1006).
- Defaults.TargetName: a model class given as `target` is not represented.
  Values have no class objects, so every target that is not a string reads
  as the empty name. The source would take the class's registered name
  there (src/scaffold.js:979, 1672).
- FormRules.FormatRule: a `format` rule without a `matcher` is not
  represented. The source crashes reading `matcher.toString()` there
  (src/scaffold.js:1276). The model's rules always carry a matcher text.
- Buttons.BuildButtons and FormBuild.LoadRecordHook work on copies. The
  source writes the replaced buttons back into the caller's `config.buttons`
  array (src/scaffold.js:1714) and adds the loader to the caller's
  `initialPanelConfig.listeners` object (src/scaffold.js:1744-1748). Aliasing
  with objects the caller keeps is therefore not captured.
- Buttons.ReplaceButtonPlaceHolders and Buttons.ConfigWithButtons do not
  write into the caller's objects. The source applies `scope` and `handler`
  onto the caller's own `createButtonConfig`, `resetButtonConfig` and
  `saveButtonConfig` objects (src/scaffold.js:194-208), and the grid assigns
  the rewritten list back to its `config.buttons` (src/scaffold.js:1016).
  The model returns new values instead, so a later reader of those caller
  objects seeing the change is not captured.
- GridScaffold.BuildColumnConfig, `GridScaffold.ColumnConfig`,
  `GridBuild.BuildColumns` and `GridBuild.BuildConfig` compute the corrected
  editor transform of the finding below. The crash the source has there is
  modelled separately by `GridScaffold.ColumnConfigAsWritten`.
- GridBuild.BuildColumns and FormBuild.BuildFields only promise that the
  store cache grows. Each store they hand out is tied to the cache one
  column or field at a time, by `GridScaffold.BuildColumnConfig` and by the
  field step of the form.

## Findings

| source | as written | input that shows it | evidently intended | confidence | as-written member | corrected member |
|---|---|---|---|---|---|---|
| src/scaffold.js:599-602 | `buildFieldConfig` returns `undefined` for an upload editor, then `internalTransformFieldConfig` reads `.name` of it | an editable grid whose model has a `file` validation rule on a plain field | the upload field has no editor and the column is still built | high (not executed) | GridScaffold.UploadEditorCrashesAsWritten | GridScaffold.UploadColumnHasNoEditor |
