# Trusted Types test helper and WebNN batchNormalization conformance table

This project models two pieces of the web-platform-tests suite and proves
properties of them in Dafny.

**Trusted Types test helper** (`trusted-types/support/helper.sub.js`):

- `JsString` (`js_string.dfy`) gives the two ECMAScript string operations the
  helper relies on:
  - `indexOf` returns the least index of an occurrence, as an `Option`.
  - `replace` with a string pattern rewrites the first occurrence only.
- `TrustedTypesPolicies` (`trusted_types_policies.dfy`) holds:
  - the `INPUTS` and `RESULTS` tables;
  - the four transform policies `createHTMLJS`, `createScriptJS`,
    `createScriptURLJS` and `createURLJS`, each a chain of first-occurrence
    replacements.
- `TrustedTypesLocation` (`trusted_types_location.dfy`) models
  `createLocationURLJS`:
  - `location.href` is a parameter.
  - The global replacement of `#.*` removes every `#` together with the rest
    of its line. A regular-expression `.` stops at `\n`, `\r`, U+2028 and
    U+2029.
- `TrustedTypesChildFrame` (`trusted_types_child_frame.dfy`) models the
  string that `run_tests_in_child_frame` stores in `frame.srcdoc`:
  - The method `BuildChildFrameSrcdoc` builds it one `+=` at a time, with a
    loop over the kept head scripts.
  - It is proved equal to the pure description `ChildFrameSrcdoc`.
  - The inputs are the `meta` text, the resolved `script.src` URLs of the head scripts
    in document order, and the text of `tests.toString()`.

**WebNN batchNormalization conformance tests**
(`webnn/conformance_tests/batch_normalization.https.any.js`), in module
`BatchNormalizationTests` (`batch_normalization.dfy`):

- The table `batchNormTests` holds twelve fixtures. Each has:
  - named input tensors: elements, shape, data type and the `constant` flag;
  - one `batchNormalization` operator with its options;
  - the expected output tensor.
- Elements are the table's exact decimal literals, as `real`. They are only
  compared and rearranged, never computed with.
- `getBatchNormPrecisionTolerance` is a total lookup. It yields no value for a
  data type missing from its dictionary.
- `ValidBatchNormTest` states when a fixture is a meaningful test:
  - every tensor holds `product(shape)` elements;
  - the output has the input's shape and data type;
  - mean, variance, scale and bias have shape `[input.shape[axis]]`, where the
    axis defaults to 1.
- It is proved of every fixture. The lemmas also relate fixtures to each
  other:
  - the 2D triple differs only in its constant flags;
  - the `axis: 1` fixture is the 4D default fixture;
  - the NHWC fixtures hold the NCHW data laid out channels last.

`Wrappers` (`wrappers.dfy`) holds the `Option` type.

## Model

| member | source | states |
|---|---|---|
| JsString.IndexOf | trusted-types/support/helper.sub.js:197 | `indexOf` finds the least index at which the pattern occurs; absence (-1) means that it occurs nowhere |
| JsString.ReplaceFirst | trusted-types/support/helper.sub.js:16-31 | models `String.prototype.replace` with a string pattern; no `ensures` of its own: ReplaceFirstAtFirst, ReplaceFirstAbsent, ReplaceFirstKeepsRest and ReplaceFirstAfter state its behaviour |
| JsString.ReplaceFirstAtFirst | trusted-types/support/helper.sub.js:15-32 | `replace` with a string pattern rewrites exactly the first occurrence: prefix, replacement, rest |
| JsString.ReplaceFirstAbsent | trusted-types/support/helper.sub.js:15-32 | a string without any occurrence of the pattern is returned unchanged |
| JsString.ReplaceFirstKeepsRest | trusted-types/support/helper.sub.js:15-32 | the length changes by the length difference; the text before and after the first occurrence is kept, with the replacement in between |
| JsString.ReplaceFirstAfter | trusted-types/support/helper.sub.js:15-32 | in `p + pat + q`, the occurrence after `p` is the one rewritten when some character of `pat` is absent from `p` and from the part of `pat` before it |
| TrustedTypesPolicies.CreateHTML | trusted-types/support/helper.sub.js:15-18 | models `createHTMLJS`; no `ensures` of its own: CreateHTMLMeetsResult and PoliciesKeepTextWithoutPatterns state its behaviour |
| TrustedTypesPolicies.CreateScript | trusted-types/support/helper.sub.js:20-23 | models `createScriptJS`; no `ensures` of its own: CreateScriptMeetsResult and PoliciesKeepTextWithoutPatterns state its behaviour |
| TrustedTypesPolicies.CreateScriptURL | trusted-types/support/helper.sub.js:25-27 | models `createScriptURLJS`; no `ensures` of its own: CreateScriptURLMeetsResult and PoliciesKeepTextWithoutPatterns state its behaviour |
| TrustedTypesPolicies.CreateURL | trusted-types/support/helper.sub.js:29-32 | models `createURLJS`; no `ensures` of its own: CreateURLMeetsResult and PoliciesKeepTextWithoutPatterns state its behaviour |
| TrustedTypesPolicies.CreateHTMLMeetsResult | trusted-types/support/helper.sub.js:15-18 | `createHTMLJS` maps `INPUTS.HTML` to `RESULTS.HTML` (tables at lines 2 and 9) |
| TrustedTypesPolicies.CreateScriptMeetsResult | trusted-types/support/helper.sub.js:20-23 | `createScriptJS` maps `INPUTS.SCRIPT` to `RESULTS.SCRIPT` (lines 3 and 10) |
| TrustedTypesPolicies.CreateScriptURLMeetsResult | trusted-types/support/helper.sub.js:25-27 | `createScriptURLJS` maps `INPUTS.SCRIPTURL` to `RESULTS.SCRIPTURL` (lines 4 and 11) |
| TrustedTypesPolicies.CreateURLMeetsResult | trusted-types/support/helper.sub.js:29-32 | `createURLJS` maps `INPUTS.URL` to `RESULTS.URL` (lines 5 and 12); the second replacement acts on the result of the first |
| TrustedTypesPolicies.PoliciesKeepTextWithoutPatterns | trusted-types/support/helper.sub.js:15-32 | each policy returns a string unchanged when none of its patterns occurs in it |
| TrustedTypesLocation.RemoveFragments | trusted-types/support/helper.sub.js:39 | models `replace(/#.*/g, "")`; no `ensures` of its own: RemoveFragmentsHasNoHash, RemoveFragmentsKeepsPrefix and RemoveFragmentsDropsFragment state its behaviour |
| TrustedTypesLocation.CreateLocationURL | trusted-types/support/helper.sub.js:38-40 | models `createLocationURLJS` with `location.href` as a parameter; no `ensures` of its own: the CreateLocationURL lemmas below state its behaviour |
| TrustedTypesLocation.SkipRestOfLine | trusted-types/support/helper.sub.js:39 | the greedy `.*` consumes a line-terminator-free prefix and stops at the first line terminator or at the end |
| TrustedTypesLocation.RemoveFragmentsHasNoHash | trusted-types/support/helper.sub.js:39 | no `#` is left after the global replacement, whatever the href |
| TrustedTypesLocation.RemoveFragmentsKeepsPrefix | trusted-types/support/helper.sub.js:39 | text without `#` passes through the replacement untouched, whatever follows it |
| TrustedTypesLocation.RemoveFragmentsDropsFragment | trusted-types/support/helper.sub.js:39 | a `#` followed by the rest of a single line is removed entirely |
| TrustedTypesLocation.CreateLocationURLSingleLine | trusted-types/support/helper.sub.js:38-40 | on a single-line href: an href without `#` gives href + `#` + value; otherwise the href truncated before its first `#`, then `#` and the value |
| TrustedTypesLocation.CreateLocationURLIgnoresFragment | trusted-types/support/helper.sub.js:38-40 | hrefs that differ only in their fragment give the same URL: base + `#` + value |
| TrustedTypesLocation.CreateLocationURLReplacesOwnFragment | trusted-types/support/helper.sub.js:38-40 | for a value without line terminators (`SingleLine(value)`), applying the policy's string function to its own result with a new value equals applying it to the original href with that value; with a multi-line value the property fails in the source too |
| TrustedTypesChildFrame.KeptScripts | trusted-types/support/helper.sub.js:196-197 | models the `filter` over the head scripts; no `ensures` of its own: KeptScriptsAppend and KeptScriptsCount state its behaviour |
| TrustedTypesChildFrame.ChildFrameSrcdoc | trusted-types/support/helper.sub.js:194-204 | the pure description of the finished `srcdoc`; no `ensures` of its own: BuildChildFrameSrcdoc is proved equal to it, and ChildFrameSrcdocLayout and SrcdocTailText state its layout |
| TrustedTypesChildFrame.KeepScript | trusted-types/support/helper.sub.js:197 | a script is kept exactly when `testharnessreport` occurs nowhere in its `src` |
| TrustedTypesChildFrame.BuildChildFrameSrcdoc | trusted-types/support/helper.sub.js:194-204 | the `+=` sequence builds exactly `meta`, then one script tag per kept script in order, then the tail |
| TrustedTypesChildFrame.SrcdocTailText | trusted-types/support/helper.sub.js:201-204 | the tail, once its pieces are joined, is `<body><script>setup({output: false});(` + tests + `)()</script>` |
| TrustedTypesChildFrame.ChildFrameSrcdocLayout | trusted-types/support/helper.sub.js:194-204 | the document splits, by length, into `meta`, the kept scripts' tags and the tail |
| TrustedTypesChildFrame.KeptScriptsAppend | trusted-types/support/helper.sub.js:196-197 | the filter keeps document order: filtering a concatenation concatenates the filtered parts |
| TrustedTypesChildFrame.KeptScriptsCount | trusted-types/support/helper.sub.js:196-197 | every `src` without `testharnessreport` is kept as often as it occurs; every other `src` is dropped |
| TrustedTypesChildFrame.ScriptTagsAppend | trusted-types/support/helper.sub.js:198-200 | the tags of a concatenation of script lists are the concatenation of their tags |
| BatchNormalizationTests.BatchNormTests | webnn/conformance_tests/batch_normalization.https.any.js:33-709 | the fixture table, in its order, built from the twelve fixture constants; a constant, so no `ensures`: BatchNormTestsAreGood and the fixture lemmas below state its properties |
| BatchNormalizationTests.ValidBatchNormTest | webnn/conformance_tests/batch_normalization.https.any.js:33-709 | the validity predicate a fixture must meet; no `ensures` of its own: the Test*IsGood lemmas prove it of every fixture, and ValidFixtureTensorsAreWellSized derives sizes from it |
| BatchNormalizationTests.BatchNormPrecisionTolerance | webnn/conformance_tests/batch_normalization.https.any.js:26-31 | the metric is always ULP; a value exists exactly for float32 and float16, and it is 6 |
| BatchNormalizationTests.GoodFixtureToleranceIsSixUlp | webnn/conformance_tests/batch_normalization.https.any.js:26-31 | in a valid fixture with a float32 input, every tensor is float32, so the expected output is compared within 6 ULP |
| BatchNormalizationTests.ValidFixtureTensorsAreWellSized | webnn/conformance_tests/batch_normalization.https.any.js:33-709 | in a valid fixture every input and every expected output holds `product(shape)` elements |
| BatchNormalizationTests.BatchNormTestsAreGood | webnn/conformance_tests/batch_normalization.https.any.js:33-709 | every fixture of the table is valid and has a float32 input |
| BatchNormalizationTests.Test2DNonConstantStatisticsIsGood | webnn/conformance_tests/batch_normalization.https.any.js:34-90 | the 2D fixture with non-constant mean and variance is valid (shapes, sizes, operand names, axis 1) and float32 |
| BatchNormalizationTests.Test2DConstantIsGood | webnn/conformance_tests/batch_normalization.https.any.js:91-149 | the 2D all-constant fixture is valid and float32 |
| BatchNormalizationTests.Test2DIsGood | webnn/conformance_tests/batch_normalization.https.any.js:150-207 | the 2D default-options fixture is valid and float32 |
| BatchNormalizationTests.Test3DIsGood | webnn/conformance_tests/batch_normalization.https.any.js:208-259 | the 3D fixture is valid and float32 |
| BatchNormalizationTests.Test4DIsGood | webnn/conformance_tests/batch_normalization.https.any.js:260-311 | the 4D default-options fixture is valid and float32 |
| BatchNormalizationTests.Test5DIsGood | webnn/conformance_tests/batch_normalization.https.any.js:312-363 | the 5D fixture is valid and float32 |
| BatchNormalizationTests.Test4DNchwAxis1IsGood | webnn/conformance_tests/batch_normalization.https.any.js:364-416 | the NCHW `axis: 1` fixture is valid and float32 |
| BatchNormalizationTests.Test4DNhwcAxis3IsGood | webnn/conformance_tests/batch_normalization.https.any.js:417-469 | the NHWC `axis: 3` fixture is valid (statistics of length `shape[3]`) and float32 |
| BatchNormalizationTests.Test4DNchwScaleIsGood | webnn/conformance_tests/batch_normalization.https.any.js:470-527 | the NCHW scale fixture is valid (the scale tensor is per channel) and float32 |
| BatchNormalizationTests.Test4DNchwBiasIsGood | webnn/conformance_tests/batch_normalization.https.any.js:528-585 | the NCHW bias fixture is valid (the bias tensor is per channel) and float32 |
| BatchNormalizationTests.Test4DNchwEpsilonIsGood | webnn/conformance_tests/batch_normalization.https.any.js:586-638 | the NCHW epsilon fixture is valid and float32 |
| BatchNormalizationTests.Test4DNhwcAllOptionsIsGood | webnn/conformance_tests/batch_normalization.https.any.js:639-708 | the NHWC all-options fixture is valid (scale and bias per channel along axis 3) and float32 |
| BatchNormalizationTests.TwoDFixturesDifferOnlyInConstantFlags | webnn/conformance_tests/batch_normalization.https.any.js:34-207 | the three 2D fixtures have the same elements, descriptors, operator and expected output. Their constant flags are none set, all set, and mean and variance set |
| BatchNormalizationTests.ChannelsFirstFixturesShareInputElements | webnn/conformance_tests/batch_normalization.https.any.js:34-638 | every channels-first fixture has the same 24 input elements, whatever its rank |
| BatchNormalizationTests.Axis1FixtureMatchesDefault | webnn/conformance_tests/batch_normalization.https.any.js:260-416 | the `axis: 1` fixture has the 4D default fixture's inputs and output; only the written-out axis differs, and both axes are 1 |
| BatchNormalizationTests.NchwOptionFixturesExtendDefault | webnn/conformance_tests/batch_normalization.https.any.js:260-638 | the scale, bias and epsilon fixtures are the 4D default fixture plus one option. The scale and bias fixtures add the tensor their option names, and the epsilon set is below the default 1e-5 |
| BatchNormalizationTests.ChannelsLastShape | webnn/conformance_tests/batch_normalization.https.any.js:417-469 | the channels-last shape has the channels last and the same element count |
| BatchNormalizationTests.ChannelsLastIsRearrangement | webnn/conformance_tests/batch_normalization.https.any.js:417-469 | the NHWC layout is a rearrangement: distinct index tuples go to distinct positions, and every position holds the NCHW element of some tuple |
| BatchNormalizationTests.ChannelsLastDetermined | webnn/conformance_tests/batch_normalization.https.any.js:417-469 | the NCHW tensor fixes its channels-last layout: two NHWC tensors that both lay it out are equal |
| BatchNormalizationTests.NhwcAxis3InputElements | webnn/conformance_tests/batch_normalization.https.any.js:417-469 | NHWC input element `n*12+h*6+w*3+c` is NCHW input element `n*12+c*4+h*2+w` of the 4D default fixture |
| BatchNormalizationTests.NhwcAxis3OutputElements | webnn/conformance_tests/batch_normalization.https.any.js:417-469 | the same permutation maps the 4D default fixture's expected output to the NHWC one |
| BatchNormalizationTests.NhwcAxis3FixtureIsNchwChannelsLast | webnn/conformance_tests/batch_normalization.https.any.js:260-469 | the NHWC `axis: 3` fixture is the 4D default fixture laid out channels last: input and output rearranged, the same statistics, and the axis moved to 3 |
| BatchNormalizationTests.AllOptionsFixtureCombinesOptionFixtures | webnn/conformance_tests/batch_normalization.https.any.js:417-708 | the all-options fixture combines the axis-3 fixture's tensors with the scale and bias fixtures' tensors, and sets each option as the single-option fixtures do |

## Left out

- String.prototype.replace: `$` patterns in the replacement string are not interpreted. No replacement in the helper contains `$`.
- Strings are sequences of Dafny characters, not UTF-16 code units; all literals in the helper are ASCII.
- The TrustedTypes policy objects (`create*_policy`), the `assert_*` DOM helpers, and element and attribute handling are left out, because they are browser DOM calls.
- run_tests_in_child_frame: creating the frame, querying the head scripts, appending the frame and `fetch_tests_from_window` are DOM and harness calls. The head scripts' `src` values and `tests.toString()` are parameters.
- createLocationURLJS: `location.href` is a parameter.
- getBatchNormPrecisionTolerance: `getExpectedDataTypeOfSingleOutput` is not part of this model. The expected data type is a parameter.
- getBatchNormPrecisionTolerance: a dictionary key inherited from `Object.prototype` (such as `toString`) is not modelled. Such a key is not a data type.
- The batchNormalization arithmetic and the ULP comparison of actual against expected outputs, including any numeric property of the expected outputs, are left out. They are floating-point computation done by the browser and the shared harness.
- The epsilon and all-options fixtures are checked for shapes, options and data placement only, for the same reason.
- `navigator.ml` detection, the `forEach` over the table and `webnn_conformance_test` are not part of this model. They are the external test driver.
- A fixture input without a `constant` member is modelled with `constant` false. A fixture without `options` is modelled with all options absent.
- BatchNormTestsAreGood: the table-wide fact is stated for each fixture by name. It is not a quantifier over the indices of `BatchNormTests`, because the quantified form exceeds the verifier's resource limit when the whole literal table is unfolded in one proof.
- The head-script filter is a pure function over the list of `script.src` values. The static `NodeList` returned by `querySelectorAll`, its `slice` copy, and the resolution of each `src` against the document base URL are not modelled: the resolved URLs are the parameter.
- feature-policy/resources/picture-in-picture.js is not part of this model.
