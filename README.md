# Terra quiz service — a Dafny model

The Terra service answers quiz questions about the five instruments of NASA's
Terra satellite: ASTER, CERES, MODIS, MOPITT and MISR. Each instrument has its
own collection of quiz records in a document store. This project models the
core of the service and proves properties of it:

- **The query controller** (`terra.dfy`, module `Terra`). It models the five
  per-instrument listings, the aggregate listing of all five collections, and
  the random-question handler. The handler upper-cases the route parameter,
  dispatches it to a collection, counts the collection, draws an offset and
  reads the record at that offset. Every success and failure reply is
  modelled with its status code and its JSON body, with each record reduced
  to its four fields.
- **The seeder** (`seed.dfy`, module `Seed`). It clears the five collections
  and groups the input questions by phase label, keeping the order in which
  each label first appears. Each phase goes to the collection the phase table
  names. The "Terra Mission Overview" phase goes to all five collections, and
  any other label is skipped. The seeder returns the reported total and the
  exit code.
- **The message controller** (`messages.dfy`, module `Messages`). It models
  the chat endpoint and the answer-explanation endpoint: request
  validation, the exact explanation prompt, and the relay of the AI
  provider's chunks into a chunked text response, including both error paths.

Supporting modules:

- `quiz.dfy` (module `Quiz`) declares the shared vocabulary: categories,
  records, and thrown values.
- `store.dfy` (module `DocumentStore`) declares the class `Store`. It holds
  the five collections as a map of sequences, a fixed map that says which
  calls throw and what they throw, and a ghost log of every call made.
- `http.dfy` (module `Http`) declares the class `Response`. It holds the
  status, the headers, the written chunks, the JSON body, whether the
  headers are sent, and how many times the response was ended.

Controllers and the seeder are methods over these two objects. Their
contracts state the entire new state of both objects.

Parameters stand in for the outside world:

- `Math.random()` is a `real` parameter in [0, 1).
- The route parameter is an `Option<string>`.
- The parsed request body is a map from keys to JSON values.
- The AI provider's output is a `Stream`: the chunks it emits, and the error
  it ends with, if any.
- A failing store call is an entry of `Store.failing`.

The contracts below are written over a few functions that compute what
the source's expressions compute. They carry no contract of their own; the
lemmas named with each one state what it means.

- `Terra.ToUpper` is `toUpperCase` (src/controllers/terraController.ts:161).
  `Terra.ToUpperIgnoresCase` and `Terra.SelectDotlessI` describe it.
- `Terra.DataObject` is the object literal of the aggregate reply
  (src/controllers/terraController.ts:110-134). `Terra.AllListings`
  describes it.
- `Seed.TargetOf` is the `if (model) ... else if (phase === 'Terra Mission
  Overview')` choice of src/scripts/seedData.ts:77-90. It sends a phase to
  one collection, to all five, or nowhere. `Seed.TargetFacts` and
  `Seed.PhaseOf` describe it.
- `Seed.ToRecord` is the `map` that keeps four fields of a question
  (src/scripts/seedData.ts:80-85 and 92-97). `Seed.SeededMembers` describes
  what it puts into the collections.
- `Messages.Truthy` is JavaScript truthiness, as the `!x` tests at
  src/controllers/messageController.ts:8 and 45 use it. `undefined`,
  `null`, `false`, `0` and `""` are falsy, everything else is truthy.
- `Messages.ToStr` is `String(v)`, as a template placeholder applies it
  (src/controllers/messageController.ts:55-59). `Messages.ToStrThrows`
  describes when it throws.
- `Messages.OptionsSection` is the options placeholder at
  src/controllers/messageController.ts:56. `Messages.OptionsSectionLines`,
  `Messages.ListedLines` and `Messages.PlainLines` describe its lines.
- `Messages.BuildPrompt` is the template literal at
  src/controllers/messageController.ts:54-62. Its placeholders are
  converted from left to right, and the first one that throws ends it.
  `Messages.BuildPromptThrows` and `Messages.PromptLines` describe it.

## Model

| member | source | states |
|---|---|---|
| `DocumentStore.Store.Find` | src/controllers/terraController.ts:7 | `find()` is logged and returns the whole collection, or throws the configured error |
| `DocumentStore.Store.CountDocuments` | src/controllers/terraController.ts:186 | `countDocuments()` is logged and returns the collection size, or throws |
| `DocumentStore.Store.FindOneSkip` | src/controllers/terraController.ts:197 | `findOne().skip(k)` returns the record at offset k, null past the end, or throws |
| `DocumentStore.Store.DeleteMany` | src/scripts/seedData.ts:54-60 | `deleteMany({})` empties the collection, or throws and leaves it unchanged |
| `DocumentStore.Store.InsertMany` | src/scripts/seedData.ts:87 | `insertMany(docs)` appends the documents and returns them, or throws and inserts nothing |
| `Http.Response.Status` | src/controllers/terraController.ts:8 | `res.status(code)` sets the status code only |
| `Http.Response.SetHeader` | src/controllers/messageController.ts:17-18 | `setHeader` adds one header; it is only legal before the headers are sent |
| `Http.Response.Write` | src/controllers/messageController.ts:22 | `write(chunk)` appends the chunk and sends the headers |
| `Http.Response.End` | src/controllers/messageController.ts:25 | `end()` finishes the response once more |
| `Http.Response.Json` | src/controllers/terraController.ts:8-12 | `json(body)` sets the body, sends the headers and finishes the response |
| `Terra.SelectCategory` | src/controllers/terraController.ts:161-184 | the selected collection is exactly the one whose name equals the upper-cased parameter; no match selects none |
| `Terra.ToUpperIgnoresCase` | src/controllers/terraController.ts:161 | any spelling of an upper-case ASCII word, with each letter in either case, upper-cases to that word |
| `Terra.NameIsUpper` | src/controllers/terraController.ts:162-175 | the five case labels consist of upper-case letters only |
| `Terra.SelectIgnoresCase` | src/controllers/terraController.ts:161-184 | every mixed-case spelling of a collection name selects that collection |
| `Terra.SelectAster` | src/controllers/terraController.ts:161-184 | "Aster" selects ASTER |
| `Terra.SelectUnknown` | src/controllers/terraController.ts:177-183 | "landsat" selects nothing |
| `Terra.SelectDotlessI` | src/controllers/terraController.ts:161 | `toUpperCase` maps the dotless i to I, so "mısr" selects MISR |
| `Terra.Offset` | src/controllers/terraController.ts:196 | the drawn offset is a valid index below the count |
| `Terra.OffsetUniform` | src/controllers/terraController.ts:196 | offset k is drawn exactly when the random value lies in [k/count, (k+1)/count), so every record is equally likely |
| `Terra.GetCategoryData` | src/controllers/terraController.ts:5-97 | each per-instrument listing reads only its own collection. On success it replies 200 with `{success, count, data}`, where count is the number of records. On failure it replies 500 with "Failed to fetch NAME data" and the error details. The store is never changed |
| `Terra.AllListings` | src/controllers/terraController.ts:110-134 | the aggregate `data` object has exactly the five names as keys. Each key holds its collection's records, and its count equals the number of those records |
| `Terra.FirstFault` | src/controllers/terraController.ts:102-108 | the sequential reading of `Promise.all` rejects iff some `find` fails, and then with the error of the first failing one in array order |
| `Terra.FirstThrown` | src/controllers/terraController.ts:102-108 | `Promise.all` settles without an error iff every call returned |
| `Terra.FirstThrownOfFinds` | src/controllers/terraController.ts:102-108 | for the outcomes of `find` on a list of collections, settling picks exactly the first fault of that list |
| `Terra.FindEach` | src/controllers/terraController.ts:102-108 | the five `find` calls are issued in array order. They settle with the first fault, and every call that returned holds its collection's records |
| `Terra.GetAllTerraData` | src/controllers/terraController.ts:100-143 | all five collections are read. The reply is 200 with all five listings, or 500 "Failed to fetch Terra data" carrying the first error |
| `Terra.GetRandomQuestion` | src/controllers/terraController.ts:146-211 | a missing or empty parameter, or an unknown name, gets a 400 and the store is not touched. A failing count gets a 500. An empty collection gets a 404 that names the parameter as given. Otherwise exactly the record at the drawn offset is returned, or a failing read gets a 500. Only the calls described are made |
| `Seed.PhaseOf` | src/scripts/seedData.ts:23-30 | each collection has a phase label that the phase table maps to it |
| `Seed.TargetFacts` | src/scripts/seedData.ts:76-110 | a collection receives a phase's questions iff the phase is its own table entry or the overview phase; every other label is skipped |
| `Seed.PhasesSpec` | src/scripts/seedData.ts:64-70 | the grouping keys are distinct, and they are exactly the phase labels found in the input |
| `Seed.OfPhaseMembers` | src/scripts/seedData.ts:64-70 | a group holds exactly the input questions with that label |
| `Seed.AbsentPhaseEmpty` | src/scripts/seedData.ts:64-70 | a label that is not a key has no questions |
| `Seed.FlattenStep` | src/scripts/seedData.ts:64-70 | appending a question adds it to the group of its own label only |
| `Seed.GroupingPartitions` | src/scripts/seedData.ts:64-70 | the groups together are a permutation of the input: nothing is lost or duplicated |
| `Seed.GroupByPhase` | src/scripts/seedData.ts:64-70 | the loop builds the keys in first-appearance order, and each key maps to its group in input order |
| `Seed.ContributionShape` | src/scripts/seedData.ts:76-110 | the records a collection receives during the phase loop are its own phase's records and the overview records, in the order of their phases |
| `Seed.SeededContents` | src/scripts/seedData.ts:76-110 | after seeding, a collection holds its own phase's records and the overview records, in one of the two orders |
| `Seed.SeededMembers` | src/scripts/seedData.ts:76-110 | a record is in a collection iff some input question with a phase routed there produced it |
| `Seed.SeededSize` | src/scripts/seedData.ts:76-110 | a collection's size is its own phase's count plus the overview count |
| `Seed.InsertedStep` | src/scripts/seedData.ts:74-111 | each question adds 1, 5 or 0 to the total, according to where its phase goes |
| `Seed.TotalStep` | src/scripts/seedData.ts:74-111 | one more input question adds its phase's weight to the final total |
| `Seed.SeedTotalCounts` | src/scripts/seedData.ts:89-109 | the total is the number of mapped questions plus five times the number of overview questions |
| `Seed.MappedSplits` | src/scripts/seedData.ts:79-89 | the mapped questions are the sum of the five phase groups |
| `Seed.SeedTotalStored` | src/scripts/seedData.ts:74-113 | the reported total equals the sum of the five collection sizes after seeding |
| `Seed.ContributionIgnores` | src/scripts/seedData.ts:76-110 | a question whose phase is not routed to a collection does not change what that collection receives |
| `Seed.UnknownPhaseIgnored` | src/scripts/seedData.ts:77-110 | a question with an unknown label changes neither any collection nor the total |
| `Seed.ClearAll` | src/scripts/seedData.ts:54-60 | all five deletes are issued and logged in array order. The step succeeds iff none throws. Every collection whose delete returned is empty, and one whose delete threw is unchanged |
| `Seed.InsertIntoAll` | src/scripts/seedData.ts:99-107 | all five inserts are issued and logged in array order. The step succeeds iff none throws, and then the count is the number of documents. Each collection whose insert returned gains the documents, and one whose insert threw is unchanged |
| `Seed.DistributePhase` | src/scripts/seedData.ts:77-110 | one loop step logs the inserts its phase needs and succeeds iff none of them throws. A collection gains the phase's records iff the phase is routed to it and its insert returned. On success the total grows by the weighted number of records |
| `Seed.PassFailsMeans` | src/scripts/seedData.ts:77-110 | a pass of the loop fails iff the insert into some collection its phase is routed to throws |
| `Seed.DistributeNext` | src/scripts/seedData.ts:76-111 | one more loop step keeps the calls made and the records appended so far in step with the whole loop's, and moves past the step, or to the end when it failed |
| `Seed.LoopAppendsComplete` | src/scripts/seedData.ts:76-111 | when no pass fails, what the loop appends to a collection is exactly that collection's contribution |
| `Seed.DistributeAll` | src/scripts/seedData.ts:74-111 | the loop over the groups succeeds iff no insert that some phase needs fails. It then adds exactly each collection's contribution, and the total is the weighted count. For every outcome, the calls logged and each collection's contents are those of the passes run up to and including the first one that failed |
| `Seed.SeedDatabase` | src/scripts/seedData.ts:32-145 | exit code 0 iff no delete fails and no insert a phase needs fails. On 0, each collection holds exactly its seeded records and the total is the seeded total. On 1, a collection whose delete threw is unchanged. When some delete threw, every other collection is empty and no insert is made; otherwise each collection holds what the loop appended before it stopped. The log is the five deletes followed by the inserts of the passes run |
| `Messages.NatToStringDecimal` | src/controllers/messageController.ts:56 | the option numbers are written in plain decimal digits, and reading them back gives the number |
| `Messages.LinesAppend` | src/controllers/messageController.ts:54-62 | cutting at line breaks splits a string joined by a line break into the lines of the two sides |
| `Messages.LinesOfJoin` | src/controllers/messageController.ts:56 | `join('\n')` followed by a cut at line breaks gives the lines of every part |
| `Messages.ToStrThrows` | src/controllers/messageController.ts:55-59 | `String(v)` in a template placeholder throws exactly when `v` is an object with its own `toString` key, or an array holding such a value at any depth. It always throws the "Cannot convert object to primitive value" error |
| `Messages.Texts` | src/controllers/messageController.ts:56 | converting the option list succeeds iff every element converts, and then gives each element's text in order |
| `Messages.BuildPromptThrows` | src/controllers/messageController.ts:54-62 | building the prompt throws iff the question, the options part or one of the two answers cannot be converted, and then always with the conversion error |
| `Messages.ObjectQuestionThrows` | src/controllers/messageController.ts:55 | a question object with its own `toString` key makes the prompt throw |
| `Messages.PromptLines` | src/controllers/messageController.ts:54-62 | cut at line breaks, the prompt is: an empty line, the question, the options part, an empty line, the two answers, an empty line, the request sentence, and a final empty line |
| `Messages.OptionsSectionLines` | src/controllers/messageController.ts:56 | when every option converts to a text with no line break, the options part converts without error. Its lines are a single empty line for a falsy value. Otherwise they are an empty line and the heading, then either the `i. option` lines counting from 1 or the value itself |
| `Messages.ListedLines` | src/controllers/messageController.ts:56 | an option list is an empty line, the heading, then one numbered line per option, or one empty line for an empty list |
| `Messages.PlainLines` | src/controllers/messageController.ts:56 | an option value that is not a list is an empty line, the heading, then the value on its own line |
| `Messages.NumberedLinesRoundTrip` | src/controllers/messageController.ts:56 | the numbered option lines, joined and cut again, come back unchanged |
| `Messages.RelayStream` | src/controllers/messageController.ts:17-37 | the streaming headers are set and every chunk is written, in order. A completed stream ends once with status 200. A failure before the first chunk gives a 500 JSON error, and a later failure just ends the response |
| `Messages.MessageController` | src/controllers/messageController.ts:4-38 | only a non-empty string message is sent to the provider and relayed; anything else gets a 400 before any header is set |
| `Messages.ExplainQuestionController` | src/controllers/messageController.ts:40-86 | if question, userAnswer or correctAnswer is falsy, the reply is a 400 and nothing is sent. Otherwise exactly the built prompt is sent and relayed, except when a placeholder cannot be converted. Then nothing is sent and the reply is a 500 "Internal server error" carrying the conversion error |

## Left out

- Database connection, file reading and deletion, `process.exit` as a side
  effect, and console logging are I/O. The seeder returns its exit code
  instead of exiting.
- The seeder's early exit when `data.json` is missing, and JSON parse
  errors of the input file: both are file I/O.
- Seed.SeedDatabase: the final `countDocuments` calls are not modelled.
  They only feed log lines, but a failure there would also give exit code 1.
- Seed.SeedDatabase: labels are treated as plain dictionary keys. A label
  that names an inherited object member, such as `constructor` or
  `__proto__`, finds an inherited truthy value at src/scripts/seedData.ts:66.
  The call to `push` at line 69 then throws a TypeError, and the run exits
  with 1 after all five collections were cleared. The model groups such a
  label like any other.
- Seed.SeedDatabase: a failing `fs.unlinkSync` at src/scripts/seedData.ts:117
  would also turn exit code 0 into 1. File deletion is I/O and is not
  modelled.
- DocumentStore.Store.DeleteMany, DocumentStore.Store.InsertMany: a call that
  throws is taken to change nothing. An ordered `insertMany` in MongoDB keeps
  the documents inserted before the error, and that partial insert is not
  modelled.
- DocumentStore.Store: a failure in `failing` is keyed on the kind of call and
  the collection only. Two inserts into the same collection in one run
  therefore fail or succeed together. Failures that depend on the documents,
  such as the schema's required fields in src/models/ASTER.ts:14-29, cannot
  be expressed.
- Object key order: JavaScript lists integer-like keys first. Such labels
  are never in the phase table, so they are skipped either way, and the
  model uses insertion order.
- Concurrency: `Promise.all` is modelled as running its calls one after the
  other and rejecting with the first failure in array order. The real
  rejection follows completion order.
- Terra.GetRandomQuestion: the collection cannot change between the count
  and the skip query. The case of a null record is therefore reached only
  through the store's own past-the-end result.
- Terra.Offset: `Math.random()` is an exact real. Floating-point rounding
  of the product is not modelled.
- Terra.SelectCategory: upper-casing is exact only for the characters whose
  upper case is plain ASCII. Every other character is kept as it is. This
  cannot change which of the five names matches.
- The AI provider: `src/services/aiService.ts` is not part of this model.
  Its output is a `Stream` parameter. The provider's filtering of empty
  chunks is assumed to have happened already.
- Messages.ToStr: JSON numbers are unbounded integers and are written out
  in full decimal digits. JavaScript numbers are floating point:
  `JSON.parse` rounds integers beyond 2^53, `String` writes magnitudes of
  10^21 and above in exponent form (`1e+21`), and fractional numbers have
  their own text form. None of these is modelled.
- Messages.ToStr: an object's own `toString` key always makes the
  conversion throw. Parsed JSON cannot hold a function, so this is exact
  for request bodies. An own `valueOf` key is also skipped by the
  conversion and needs no case of its own.
- A request without a parsed body, which throws while it is destructured,
  is not modelled.
- Records are reduced to their four fields. The serialised documents also
  carry `_id`, `createdAt`, `updatedAt` and `__v`, and `res.json` also sets
  the `Content-Type` header; neither is modelled.
- Express's own content negotiation and JSON serialisation in `res.json`
  are not modelled; the body is recorded as a value.
- Routes, the server set-up, the health endpoint, Swagger documentation and
  the schema definitions in `src/models` (beyond the record's four fields)
  are not part of this model.
