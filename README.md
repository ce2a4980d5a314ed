# Crop recommendation page: a verified model

The page (`src/App.js`) is one form with seven soil and climate inputs:
nitrogen, phosphorus, potassium, temperature, humidity, pH and rainfall.
Submitting the form asks a prediction server for a recommended crop.
Once a prediction is on screen, the user can ask a text-generation service for a care guide or put a question to it.
This project models the three pieces of the page that are logic rather than rendering or network traffic:

- `CropRules` (`crop_rules.dfy`) models the built-in classifier `simulatePrediction`.
  It is an ordered chain of eight threshold rules with Maize as the fallback.
  The function `SimulatePrediction` keeps the chain as written.
  `Matches`, `RuleResult` and `FirstMatchFrom` read the same rules as a decision list: a table searched for its first matching entry.
  A lemma proves that the two readings agree, and first-match-wins and the fallback are proved from that agreement.
  The confidence bounds are postconditions of `SimulatePrediction` itself, and the irrelevance of phosphorus is a separate lemma.
  Readings are `real` numbers that have already been parsed.
- `Form` (`form.dfy`) holds the form record `formData`.
  It has field read and update (`{ ...prev, [name]: value }`), `Object.values` in key order and the submit gate's test `.some(val => val === '')`.
  It also has JavaScript's `String.prototype.trim`, with the white-space set that `trim` removes.
- `CropApp` (`app.dfy`) has the class `App`.
  Its fields are the component's state variables.
  Its methods are the event handlers: an input change, form submission, the care-guide request, typing a question and sending it.
  `Valid()` is the state between events.
  No request is in flight.
  A prediction on screen belongs to a form with no empty field (this holds because each handler runs in one step; see "## Left out").
  Advisory text (`aiGuide`, `chatResponse`) exists only while a prediction does.
  Every handler preserves `Valid()`.
- `Wrappers` (`wrappers.dfy`) has `Option`, which stands for the `null`-or-record value of `prediction`.

The answers of the prediction server and of the text-generation service are parameters of the handlers.
`Submit` receives a `ServerReply`, which is either a decoded body or a failure.
`GenerateGuide` and `ChatSubmit` receive the text the service returned.
`Submit` returns `sent`, which says whether the request would be made.
The reply is consulted only when it is.

### Notes on the code

- The page shows two different error messages: one for missing fields and one for a failed server call (a network error, a non-OK status or a body that cannot be decoded).
- A failed server call keeps the earlier prediction on screen.
- The built-in classifier is never called by the page.

## Model

| member | source | states |
|---|---|---|
| CropRules.SimulatePrediction | src/App.js:72-91 | the confidence returned is one of 98, 92, 95, 94, 89, 91, 93, 88, 85, so it lies between 85 and 98 inclusive |
| CropRules.FirstMatchFrom | src/App.js:81-90 | the index found is the first rule at or after the start whose condition holds, or the fallback index when no later rule holds |
| CropRules.RuleResultInjective | src/App.js:81-90 | the nine possible records are pairwise distinct, so the record identifies the rule that produced it |
| CropRules.SimulateIsDecisionList | src/App.js:81-90 | the chain of guarded returns equals the record of the first matching rule in source order, or Maize when no rule matches |
| CropRules.FirstMatchWins | src/App.js:81-88 | when rule k holds and no earlier rule holds, the result is rule k's record |
| CropRules.EarlierRuleWins | src/App.js:81-90 | when a rule holds, no later rule's record (fallback included) is ever returned |
| CropRules.FallbackIffNoRuleMatches | src/App.js:81-90 | the result is Maize with confidence 85 exactly when none of the eight conditions holds |
| CropRules.HeavyRainIsRice | src/App.js:81 | rainfall above 200 gives Rice with confidence 98 whatever the other six readings are |
| CropRules.RainBeatsAcidity | src/App.js:81-85 | rainfall above 200 together with pH below 5.5 gives Rice, not Tea |
| CropRules.PotassiumBeatsHumidity | src/App.js:81-84 | when rainfall is at most 200, the potassium rule together with the humidity-and-rain rule gives Grapes, not Jute |
| CropRules.PhosphorusIrrelevant | src/App.js:74-90 | two readings that differ only in phosphorus give the same record |
| Form.FormData.Set | src/App.js:61-64 | after replacing field `name`, that field holds the new value and every other field holds its old value |
| Form.FormData.Values | src/App.js:5-13 | the list of values has one entry per field, in the declared key order |
| Form.SomeEmpty | src/App.js:100 | the scan reports true exactly when some value in the list is the empty string |
| Form.HasEmptyFieldIff | src/App.js:100 | the form is rejected exactly when one of its seven fields is the empty string |
| Form.EmptyFormRejected | src/App.js:5-13 | the initial form, with all fields empty, would be rejected on submission |
| Form.TrimStart | src/App.js:154 | the result is a suffix of the input, everything removed is white space, and the result does not start with white space |
| Form.TrimEnd | src/App.js:154 | the result is a prefix of the input, everything removed is white space, and the result does not end with white space |
| Form.TrimEmptyIffBlank | src/App.js:154 | the trimmed question is empty exactly when every character of the question is white space |
| CropApp.App.constructor | src/App.js:5-24 | the initial state: all fields empty, no prediction, no error or advisory text, nothing loading |
| CropApp.App.InputChange | src/App.js:59-70 | only the named field takes the new value; a prediction on screen is cleared together with the guide and the chat answer; everything else is unchanged |
| CropApp.App.Submit | src/App.js:93-128 | the request is made exactly when no field is empty; on rejection the missing-fields error is set, no prediction exists and loading ends false; on acceptance error, guide and chat answer were cleared, and the reply sets the prediction or the server error |
| CropApp.App.GenerateGuide | src/App.js:131-149 | without a prediction nothing changes; with one, only the guide takes the service's text |
| CropApp.App.ChatQueryChange | src/App.js:363 | only the question text changes |
| CropApp.App.ChatSubmit | src/App.js:152-165 | with a blank question or no prediction nothing changes; otherwise only the chat answer takes the service's text |

## Left out

- The POST to the prediction server and the calls to the text-generation service are network I/O. Their outcomes are handler parameters. JSON encoding and decoding, HTTP status handling and the extraction of the answer text (with its fallback strings) are not modelled. A server body that decodes to something other than a prediction record, such as JSON `null`, is not modelled.
- Asynchronous interleaving is not modelled. Each handler runs to completion in one step. So the `loading`, `loadingGuide` and `loadingChat` flags are true only inside a handler and false between events. An input change that arrives while a request is awaited is not modelled. The most important case is an edit made while the `/predict` call is awaited (src/App.js:108-121): the inputs stay enabled while loading, `if (prediction)` sees the old value, and the reply then calls `setPrediction` for values the form no longer holds, which may even be empty. In the real page this stale-prediction race breaks the `Valid()` clause that a prediction belongs to a form with no empty field. The same holds for an edit made while a guide or chat request is awaited, after which the late answer lands beside no prediction.
- `parseFloat` and NaN are not modelled. `SimulatePrediction` takes the seven readings as already parsed `real` numbers. In the source an unparsable field becomes NaN, every comparison with it is false, and so it falls through to the later rules.
- The prompt texts sent to the text-generation service are free text and are not modelled.
- All rendering, styling, icons and spinners are not modelled. That includes the button that hides once a guide exists and the buttons disabled while loading.
- `console.error` logging and the `preventDefault` calls are not modelled.
