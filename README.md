# cadastre-mvt build script, modelled in Dafny

`build-cadastre.js` builds vector tiles of the French land register: for each of
three layers (parcelles, batiments, sections) it streams the gzipped GeoJSON
archive of every department, one department after the other, through a
decompressor and an incremental parser, keeps three fields of every feature,
and feeds the result to `tippecanoe`; `tile-join` then merges the three tile
sets. This project models the deterministic logic under that plumbing:

- `Departements` (departements.dfy): the list of department codes, from the
  command line (each code normalised) or from the catalog.
- `Sources` (sources.dfy): the archive location template, the base URL
  default, and the choice between a network fetch and a file read.
- `Features` (features.dfy): the projection of a parsed element onto
  `{type, geometry, properties}`.
- `FeatureStream` (feature_stream.dfy): the stream factory as a class. It
  holds a private queue that each call shifts, and it signals the end of data
  once the queue is empty. `Calls` is a pure function giving the outcomes of
  successive calls, and the method's contract is tied to it.
- `Tippecanoe` (tippecanoe.dfy): the argument vectors of the tile builder, per
  layer, and of the merger.
- `Strings` and `Options` (strings.dfy, options.dfy) hold `startsWith`,
  `endsWith`, `padStart` and an optional value standing for `undefined`.

What the script does not do, and the model therefore does not either:

- The location is `{base}/{code}/cadastre-{code}-{layer}.json.gz`.
- The script has no cache.
- A failure in one department is not isolated. A constructor that throws is
  reported to the stream library's callback, which ends the whole stream.
- A layer name is not checked against a known set. `LayerURL` takes any string.

Some results fall out of the proofs. The "97" test in the code normalisation
never changes the result: a code that starts with "97" is at least two
characters long, and padding to width 2 leaves it alone anyway
(`NinetySevenRuleIsPadding`). Also, whether a location is fetched or read from
disk depends on the base URL alone (`RemoteIffBaseRemote`). So one run is
either all remote or all local.

## Model

| member | source | states |
|---|---|---|
| `Strings.Filler` | build-cadastre.js:16 | the padding `padStart` inserts has the requested length, begins with the pad string and repeats with its period |
| `Strings.PadStart` | build-cadastre.js:16 | a string already at the target length, or an empty pad string, is returned unchanged; otherwise the result has the target length, ends with the input and starts with the repeated pad string |
| `Departements.NormaliseCode` | build-cadastre.js:16 | inputs of length at least 2 (including every "97…" code) are returned unchanged; one character gets a leading '0'; the empty string becomes "00"; the result always ends with the input and is at least 2 long |
| `Departements.NormaliseCodeIdempotent` | build-cadastre.js:16 | normalising a normalised code changes nothing |
| `Departements.NinetySevenRuleIsPadding` | build-cadastre.js:16 | the "97" branch and the padding branch agree on every input, so normalisation is `padStart(2, '0')` |
| `Departements.DepartementCodes` | build-cadastre.js:15-17 | with arguments, one code per argument in argument order, each the normalised argument; with none, exactly the catalog's codes in catalog order |
| `Sources.BaseURL` | build-cadastre.js:19 | an absent or empty `--baseurl` gives the public download URL; any other value is used verbatim |
| `Sources.LayerURL` | build-cadastre.js:20-22 | the location starts with `base/code/cadastre-code`, ends with `-layer.json.gz`, and its length is fixed by its three parts |
| `Sources.CodeOfLayerURL` | build-cadastre.js:21 | a code recovered from a location rebuilds exactly that location (the parse is sound) |
| `Sources.CodeOfLayerURLRoundTrip` | build-cadastre.js:21 | parsing the location built for a code gives that code back |
| `Sources.LayerURLInjective` | build-cadastre.js:21 | two departments of the same layer and base never share a location |
| `Sources.Open` | build-cadastre.js:51-55 | a location is opened as a network fetch iff it starts with "http", otherwise as a file read, with the location itself |
| `Sources.RemoteIffBaseRemote` | build-cadastre.js:51-55 | a built location is remote iff the base URL is, whatever the code and layer |
| `Sources.DefaultBaseIsRemote` | build-cadastre.js:19-22 | without `--baseurl` every department is fetched over the network |
| `Features.Property` | build-cadastre.js:28 | a destructured property is present iff the element is an object with that key, and then carries the key's value |
| `Features.Project` | build-cadastre.js:28-29 | each of type, geometry and properties is present in the result exactly when the element is an object with that key, carrying the element's value; every other key is dropped (see also `ToObject`, `ProjectKeepsExactly`) |
| `Features.ToObject` | build-cadastre.js:28-29 | a projected record becomes an object whose keys lie among type/geometry/properties, and projecting it again gives the record back (projection is idempotent) |
| `Features.ProjectKeepsExactly` | build-cadastre.js:28-29 | the projected object holds exactly the kept keys the input object has, with the input's values; a non-object projects to the empty object |
| `FeatureStream.Construct` | build-cadastre.js:47-60 | the pipeline is handed over iff its construction does not throw, and its source is then the department's own location, opened as a fetch exactly when that location is remote |
| `FeatureStream.NextCall` | build-cadastre.js:41-46 | a call signals end of data iff the queue is empty; otherwise it hands out the queue's head |
| `FeatureStream.Calls` | build-cadastre.js:40-64 | a queue of n codes yields n calls, the i-th handing out code i with its construction outcome, followed by the end signal |
| `FeatureStream.CallsHandOutEveryCode` | build-cadastre.js:44-46 | the codes handed out, in call order, are exactly the queue, each once; this holds of the factory even when called again after a throw, although the stream library stops calling it after an error |
| `FeatureStream.CadastreFeatureStream.constructor` | build-cadastre.js:37-38 | the queue starts as a copy of the caller's array, which is only read |
| `FeatureStream.CadastreFeatureStream.StreamFactory` | build-cadastre.js:40-62 | on an empty queue, the end signal and no change; otherwise the head is removed before construction, the queue shrinks by exactly that element even when construction throws, the result is the next element of `Calls`, and at the end signal every code has been consumed |
| `Tippecanoe.TippecanoeArgs` | build-cadastre.js:67-123 | thirteen arguments: the six common options in order, `--layer <layer>`, the layer's density strategy (drop for batiments, coalesce otherwise), `-Z13`/`-Z14`/`-Z11`, `-z16`, `--output dist/<layer>.mbtiles` |
| `Tippecanoe.TippecanoeArgsReadBack` | build-cadastre.js:80-123 | an option parser reading the vector finds the layer's own name for `--layer` and its own file for `--output` |
| `Tippecanoe.OutputPathsDistinct` | build-cadastre.js:88-122 | different layers write to different files |
| `Tippecanoe.TileJoinArgs` | build-cadastre.js:128-139 | ten arguments: `--attribution=Etalab`, `--name=cadastre`, `--no-tile-size-limit`, `--no-tile-stats`, `--force`, then the merger's output after `--output`, then the parcelles, sections and batiments tile sets as inputs |
| `Tippecanoe.TileJoinArgsReadBack` | build-cadastre.js:134-135 | an option parser finds `dist/cadastre.mbtiles` as the merger's output |
| `Tippecanoe.MergeReadsEveryLayer` | build-cadastre.js:136-138 | every layer's tile set is an input of the merge and none of them is the merged output |

## Left out

- Network and file access (`got.stream`, `createReadStream`, `ensureDir`): a source is a token carrying its location. Whether building a pipeline throws is a parameter (`throws`), because it depends on foreign constructors.
- Decompression (`createGunzip`) and incremental parsing (`JSONStream.parse('features.*')`) are library internals. The model only assumes that the parser never emits a JSON `null` (the `Element` type).
- Serialisation by `ndjson.stringify`: the model stops at the projected object. Dropping `undefined` fields is modelled by `Option`. Key order and the newline framing are not modelled.
- JSON numbers are kept as their literal text. In the script, parsing and re-serialising rewrite them (1.50 becomes 1.5, digits beyond double precision are lost); that belongs to the parser and serialiser, which are left out.
- String lengths are Dafny's, counted in Unicode scalar values, not in JavaScript's UTF-16 code units. An argument holding a character outside the Basic Multilingual Plane (above U+FFFF) is therefore padded differently by `NormaliseCode` than by `padStart`.
- `MultiStream` concatenation, `pumpify` piping, backpressure, and what the stream does after an error reaches the callback are runtime plumbing. These are also asynchronous.
- `main`, `execa` runs of `tippecanoe` and `tile-join`, their exit codes and inherited output, `console.log`/`console.error` and `process.exit(1)`: these are external processes and I/O. Only the argument vectors are modelled.
- `minimist` parsing and `String(el)` coercion: arguments arrive as strings. A bare `--baseurl` flag (which `minimist` turns into `true`) and numeric option values are not modelled.
- The contents of the department catalog: it is an input list.
- A cache and per-department failure isolation do not exist in the code and are not modelled.
