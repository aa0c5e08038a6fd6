# gcsbeat core, modelled in Dafny

gcsbeat is an Elastic Beat that watches a Google Cloud Storage bucket, or a local directory named by a `file://` bucket id. It downloads each new file, turns the file into events with a codec, publishes the events, and then deletes the file or marks it as processed. This project models the sequential core of that program and proves what each part promises.

- **Codecs** (`Codec`, `Bufio`, `Clob`, `Blob`, `JsonArray`, `JsonStream`, `Records`, `Base64`). The five codecs are cursors with `Next`/`Value`/`Err`, and each one is a class. Each class is proved against a pure "drain" of its input: the records it yields and the error it ends with. The Go `Codec` interface becomes `Codec.Cursor`, a datatype over the five classes. `encoding/json` is a parameter (`JsonLib.JsonLibrary`): it gives the first token, the outcomes of decoding the array elements, and the outcomes of decoding the stream values. The blob codec's base64 follows section 4 of RFC 4648, and the round trip is proved.
- **Storage** (`Explain`, `Afero`, `LocalProcessed`, `GcsBucket`, `BaseProvider`, `Logging`, `Storage`).
  - The afero provider, the GCS provider and the local-processed middleware are classes.
  - Every method is proved equal to a function on a state value: a directory plus a processed map, a bucket of objects with metadata, or a bolt bucket as a map.
  - The properties are lemmas about those functions: what is listed, what marking hides, what removing does, and that listings have no duplicates.
  - The Go `StorageProvider` interface becomes the datatypes `BaseProvider.Provider` and `Logging.Wrapped`. The logging decorator is `Logging.LoggingStorageProvider`.
  - `Storage` composes the layers in the order base, then local-processed, then logging.
- **The beat** (`Beat`). One discovery tick of `fileChangeWatcher` is `Beat.Beat.Tick`: list, filter, enqueue, and grow the pending set. One `downloadFile` is `Beat.Beat.DownloadFile`: read, maybe gunzip, decode, publish, close out.
- **Configuration** (`Config`). `GetAndValidateConfig` starts from the defaults, trims the metadata key and applies the four rejection rules in order. Glob compilation and matching are a parameter (`Glob.GlobEngine`).
- **The older providers** (`LegacyStorage`). `beater/storageprovider.go` holds an older copy of the afero provider, the GCS provider and the logging wrapper. It is modelled separately, with its own differences: a `Remove` that leaves the processed map alone, a fixed metadata key, and a GCS listing loop that never advances (see Findings).

Go's `error` is `Option<Error>` (`MaybeError`). `io.EOF` is the constructor `EOF`.

## Model

| member | source | states |
|---|---|---|
| Codec.Select | beater/codec/codec.go:47-67 | a selected kind's id is the input id; an unknown id fails with `No such codec: ` followed by the quoted id |
| Codec.SelectIdOf | beater/codec/codec.go:49-62 | each of the five kinds is selected by its own id: json-array, json-stream, text, clob, blob |
| Codec.Quote | beater/codec/codec.go:65 | the `%q` rendering of an id begins and ends with a double quote |
| Codec.Escape | beater/codec/codec.go:65 | escaping never shortens the id and leaves an id with no quote, backslash, newline, tab or carriage return unchanged |
| Codec.ValidCodecs | beater/codec/codec.go:80-89 | five distinct ids, and an id is listed iff `NewCodec` accepts it |
| Codec.IsValidCodec | beater/codec/codec.go:70-78 | true iff the id occurs in `ValidCodecs`, which holds iff `NewCodec` returns no error |
| Codec.NewCodec | beater/codec/codec.go:47-68 | succeeds iff the id is known; on failure the error is the unknown-id error; on success a fresh valid cursor of the chosen kind will yield exactly that kind's records for the input, then its final error |
| Codec.Cursor.Next | beater/codec/codec.go:36-44 | for every codec, `Next` is true iff a record remains; `Value` is then that record; on false `Err` is the final error, and it never changes |
| Codec.DrainLines | beater/codec/codec.go:36-40 | for every kind and input, record i is a real event, carries line i+1 and names the construction path |
| Bufio.LineEnd | beater/codec/bufio.go:43 | the scanner's token ends at the first newline, or at the end of the input when there is none |
| Bufio.LinesHaveNoNewline | beater/codec/bufio.go:40-44 | no scanned line contains a newline |
| Bufio.JoinLines | beater/codec/bufio.go:40-44 | the lines joined by newlines, plus the final newline when the input had one, rebuild the input exactly |
| Bufio.LinesOfJoin | beater/codec/bufio.go:40-44 | scanning newline-joined newline-free lines gives those lines back |
| Bufio.LineDrainRecords | beater/codec/bufio.go:40-56 | record i is line i of the input as text, with the path and line i+1; the cursor ends without error iff the read succeeded |
| Bufio.EmptyInputHasNoLines | beater/codec/bufio_test.go:15-19 | empty input gives no records and no error |
| Bufio.TwoLines | beater/codec/bufio_test.go:25-29 | "foo\nbar" gives the two records "foo" (line 1) and "bar" (line 2) |
| Bufio.BufioCodec.constructor | beater/codec/bufio.go:24-30 | line counter 0, the input's lines pending, and the drain of the input ahead |
| Bufio.BufioCodec.Next | beater/codec/bufio.go:40-44 | every call adds one to the line counter, the final false call included; true iff a line was pending, which becomes the token |
| Bufio.BufioCodec.Value | beater/codec/bufio.go:46-52 | the record has exactly the keys event, file and line |
| Bufio.BufioCodec.Err | beater/codec/bufio.go:54-56 | once the lines are exhausted, the input's read error, and none after a clean read; before that the model reports none (see "## Left out") |
| Io.AsText | beater/codec/clob.go:29 | Go's `string(bytes)` taken one character per byte, each character having that byte's value; UTF-8 sequences are not decoded into code points |
| Clob.ClobEvent | beater/codec/clob.go:26-36 | the event is the whole input as text, or "" after a read error; file is the path and line is 1 |
| Clob.ClobDrain | beater/codec/clob.go:26-43 | a clean read yields exactly one record and no error; a read error yields no record and that error |
| Clob.EmptyInputIsOneRecord | beater/codec/clob_test.go:29-33 | empty input still yields one record, with event "" |
| Clob.WholeInputIsTheEvent | beater/codec/clob_test.go:66-89 | "\tfoo\nbar \nba zz" is one event holding the text unchanged |
| Clob.ClobCodec.constructor | beater/codec/clob.go:24-43 | the event and error are fixed at construction; `hasMore` iff the read succeeded |
| Clob.ClobCodec.Next | beater/codec/clob.go:53-57 | returns the old latch and clears it, so it is true at most once and false ever after |
| Clob.ClobCodec.Value | beater/codec/clob.go:59-61 | the record has the keys event, file and line, and line is 1 |
| Clob.ClobCodec.Err | beater/codec/clob.go:63-65 | the read error stored at construction |
| Blob.BlobEvent | beater/codec/blob.go:26-38 | file is the path and line is 1; the event is "" after a read error |
| Blob.BlobDrain | beater/codec/blob.go:26-44 | exactly one record iff the read succeeded, no error then; on a read error, no record and that error |
| Blob.EventDecodesToInput | beater/codec/blob.go:28-31 | base64-decoding the event returns the bytes read |
| Blob.EventLength | beater/codec/blob.go:31 | the event has 4 * ceil(n/3) characters, as padded base64 of n bytes must |
| Blob.EmptyInputIsOneRecord | beater/codec/blob.go:28-44 | empty input yields one record with event "" and no error |
| Blob.BlobCodec.constructor | beater/codec/blob.go:26-45 | event and error fixed at construction; `hasMore` iff the read succeeded |
| Blob.BlobCodec.Next | beater/codec/blob.go:55-59 | true at most once, only after a clean read, and false ever after |
| Blob.BlobCodec.Value | beater/codec/blob.go:61-63 | the record has the keys event, file and line, and line is 1 |
| Blob.BlobCodec.Err | beater/codec/blob.go:65-67 | the read error stored at construction |
| Base64.RoundTrip | beater/codec/blob.go:31 | decoding the standard padded encoding of any byte string gives it back |
| Base64.EncodeLength | beater/codec/blob.go:31 | the encoding of n bytes has 4 * ((n + 2) / 3) characters |
| Base64.EncodeAlphabet | beater/codec/blob.go:31 | every character is in the standard alphabet, except `=` padding in the last two places |
| Records.DecodedObjects | beater/codec/json.go:71 | the objects decoded before the first failure, in order; when shorter than the outcomes, the next outcome is a failure |
| Records.FirstFailure | beater/codec/json.go:71 | no error iff every outcome decoded; otherwise the error of the first failed outcome |
| Records.JsonRecords | beater/codec/json.go:73-78 | one record per decoded object |
| Records.JsonRecordsAt | beater/codec/json.go:73-78 | record i holds object i, the path, and line first+i |
| JsonArray.StartAccepts | beater/codec/json.go:55-63 | `init` leaves no error iff the first token prints as `[`, which is the delimiter or the string "[" |
| JsonArray.RejectedStarts | beater/codec/json_test.go:30-49 | the starts `"a"`, `{`, `]`, `true`, `33` and a token error all leave an error |
| JsonArray.WellFormedArray | beater/codec/json_test.go:67-76 | N well-formed elements give exactly N records, element i with line i+1, and no error |
| JsonArray.FailureIsTerminal | beater/codec/json_test.go:77-81 | elements decoded before a failure stay as records, and that failure is the final error |
| JsonArray.ArrayStep | beater/codec/json.go:70-80 | one decode consumes one element: a good one becomes the next record, and a bad one ends the records with its error |
| JsonArray.JsonArrayCodec.constructor | beater/codec/json.go:28-41 | line 0, empty value, the error `init` sets; error iff the first token is not `[` |
| JsonArray.JsonArrayCodec.Init | beater/codec/json.go:55-63 | sets the error from the first token and changes nothing else |
| JsonArray.JsonArrayCodec.Next | beater/codec/json.go:65-81 | a sticky error or no more elements gives false and no change; otherwise one element is decoded, the line goes up by one, and the result is true iff the decode succeeded |
| JsonArray.JsonArrayCodec.Decode | beater/codec/json.go:70-80 | one decode: line+1, element consumed, error and value from the outcome |
| JsonArray.JsonArrayCodec.Value | beater/codec/json.go:74-78 | keys json, line and path once a decode happened, with the current line |
| JsonArray.JsonArrayCodec.Err | beater/codec/json.go:87-89 | the codec's current error |
| JsonStream.Mask | beater/codec/jstream.go:66-74 | EOF is reported as no error and any other error unchanged |
| JsonStream.WellFormedStream | beater/codec/jstream_test.go:19-34 | N decodable values give N records, value i with line i+1, and no error |
| JsonStream.CorruptStream | beater/codec/jstream_test.go:35-44 | a failure at value k gives k records and ends with that error |
| JsonStream.FirstFailureAt | beater/codec/jstream.go:44-60 | k clean decodes then a failure: k objects and that failure first |
| JsonStream.JsonStreamCodec.constructor | beater/codec/jstream.go:25-34 | line 0, no value yet, and no error before the first `Next` |
| JsonStream.JsonStreamCodec.Next | beater/codec/jstream.go:44-60 | false once an error is set; otherwise a decode with line+1, EOF at the end included; true iff the decode succeeded |
| JsonStream.JsonStreamCodec.Value | beater/codec/jstream.go:53-57 | keys json, line and path after the first decode, with the current line |
| JsonStream.JsonStreamCodec.Err | beater/codec/jstream.go:66-74 | nil iff the stored error is nil or EOF, otherwise the stored error |
| Explain.Keep | beater/storage/explain.go:36-50 | x is kept iff it is listed and accepted; never longer than the input |
| Explain.KeepIsSubsequence | beater/storage/explain.go:36-50 | what is kept is a subsequence of the input, in input order |
| Explain.KeepAll | beater/storage/explain.go:44-46 | when everything is accepted the list is returned unchanged |
| Explain.FilterAndExplain | beater/storage/explain.go:33-54 | the loop returns the accepted prefix result and the first filter error, as `Passed` defines it |
| Explain.PassedStep | beater/storage/explain.go:36-50 | one step: a filter error stops with no further files, otherwise an accepted file is appended |
| Explain.PassedIsSubsequence | beater/storage/explain.go:36-50 | the output is always a subsequence of the input, error or not |
| Explain.PassedWithoutErrors | beater/storage/explain.go:33-54 | with an error-free filter the output is exactly the accepted files in order, and no error |
| Explain.PassedStopsAtError | beater/storage/explain.go:38-42 | at the first error k, the output is the files accepted before k, with that error |
| Explain.ExplainFoundFiles | beater/storage/explain.go:56-64 | returns its input unchanged |
| Explain.InvertFilter | beater/storage/explain.go:66-71 | negates the verdict and passes the error through |
| Explain.InvertKeepsRejected | beater/storage/explain.go:66-71 | filtering by the inverted filter keeps exactly what the filter rejects; the two outputs split the input |
| Explain.KeepComplement | beater/storage/explain.go:66-71 | what a filter keeps and what its inversion keeps add up to the input's length |
| Afero.ProcessedFilter | beater/storage/afero.go:66-69 | processed iff the path is a key of the map, whatever its value, never an error |
| Afero.Without | beater/storage/afero.go:63 | deleting a file removes exactly that name and keeps the listing's order |
| Afero.ListIsUnprocessed | beater/storage/afero.go:41-55 | a read error gives nil and the error; otherwise the entries not in the processed map, in directory order |
| Afero.ListDistinct | beater/storage/afero.go:41-55 | a listing without repeats stays without repeats |
| Afero.MarkHides | beater/storage/afero.go:71-74 | marking is idempotent, makes the path read as processed and hides it from the listing |
| Afero.RemoveMarks | beater/storage/afero.go:62 | after `Remove`, the path reads as processed and is never listed again |
| Afero.RemoveTwice | beater/storage/storage_test.go:84-100 | `Remove` succeeds iff the file exists, and a second `Remove` fails with not-exist |
| Afero.ReadExisting | beater/storage/storage_test.go:70-82 | `Read` succeeds iff the file exists, and then gives its contents |
| Afero.RemoveKeepsDirectory | beater/storage/afero.go:61-64 | a removal keeps the directory well formed |
| Afero.WithoutKeepsOrder | beater/storage/afero.go:42 | a sorted, repeat-free listing stays so after a deletion |
| Afero.AferoStorageProvider.constructor | beater/storage/afero.go:30-32 | the given directory with an empty processed map |
| Afero.AferoStorageProvider.ListUnprocessed | beater/storage/afero.go:41-55 | returns `Unprocessed` of the provider's state |
| Afero.AferoStorageProvider.Read | beater/storage/afero.go:57-59 | returns `Opened` of the state and the path |
| Afero.AferoStorageProvider.Remove | beater/storage/afero.go:61-64 | stores false under the path, then deletes the file, even when that fails |
| Afero.AferoStorageProvider.WasProcessed | beater/storage/afero.go:66-69 | key membership and never an error |
| Afero.AferoStorageProvider.MarkProcessed | beater/storage/afero.go:71-74 | stores true under the path and always succeeds |
| Afero.BasePath | beater/storage/afero.go:24-25 | `file://` followed by the base path is the bucket id |
| Afero.NewAferoBucketProvider | beater/storage/afero.go:23-28 | a fresh provider over the directory at the bucket id minus its first 7 characters, with nothing processed |
| LocalProcessed.DbFilter | beater/storage/localprocessed.go:87-90 | processed iff the path is a key of the bolt bucket, never an error |
| LocalProcessed.NotIn | beater/storage/localprocessed.go:99-103 | a path is kept iff the bolt bucket has no entry for it |
| LocalProcessed.ListFiltersDb | beater/storage/localprocessed.go:59-67 | an inner error is returned without filtering; otherwise the inner listing minus the paths in the DB, in inner order |
| LocalProcessed.ListDistinct | beater/storage/localprocessed.go:59-67 | the listing has no repeats |
| LocalProcessed.MarkHides | beater/storage/localprocessed.go:110-115 | marking is idempotent, makes the path read as processed and hides it from the listing |
| LocalProcessed.RemoveForgets | beater/storage/localprocessed.go:73-85 | an inner failure leaves the DB alone and is returned; after an inner success the key is gone and the path reads as unprocessed |
| LocalProcessed.LocalProcessedMiddleware.constructor | beater/storage/localprocessed.go:43-47 | wraps the inner provider with the given bolt bucket |
| LocalProcessed.LocalProcessedMiddleware.RemoveProcessed | beater/storage/localprocessed.go:92-108 | the given paths without a DB entry, in order, and no error |
| LocalProcessed.LocalProcessedMiddleware.ListUnprocessed | beater/storage/localprocessed.go:59-67 | returns `Unprocessed` of the state |
| LocalProcessed.LocalProcessedMiddleware.Read | beater/storage/localprocessed.go:69-71 | forwards to the inner provider |
| LocalProcessed.LocalProcessedMiddleware.Remove | beater/storage/localprocessed.go:73-85 | inner `Remove` first, then the DB delete only on success |
| LocalProcessed.LocalProcessedMiddleware.WasProcessed | beater/storage/localprocessed.go:87-90 | true iff the path has a DB entry |
| LocalProcessed.LocalProcessedMiddleware.MarkProcessed | beater/storage/localprocessed.go:110-115 | stores "processed" under the path |
| LocalProcessed.NewLocalProcessedMiddleware | beater/storage/localprocessed.go:29-48 | fails with the open error, or when the bucket named by the key cannot be created (empty key); otherwise wraps the inner provider over that bucket's entries |
| GcsBucket.Find | beater/storage/gcsbucket.go:74-76 | the object handle for a path is the object with that name, if any |
| GcsBucket.IsMarkedAsProcessed | beater/storage/gcsbucket.go:90-98 | true iff the metadata is non-nil and maps the configured key to "processed" |
| GcsBucket.Attrs | beater/storage/gcsbucket.go:78-80 | attributes found belong to a stored object with that name |
| GcsBucket.UnmarkedNames | beater/storage/gcsbucket.go:147-151 | never more names than objects |
| GcsBucket.UnmarkedStep | beater/storage/gcsbucket.go:136-152 | one iteration: a marked object is skipped, and an unmarked one appends its name |
| GcsBucket.UnmarkedMembers | beater/storage/gcsbucket.go:147-151 | a name is kept iff some object has it and is not marked |
| GcsBucket.LookupErrorMeansProcessed | beater/storage/gcsbucket.go:100-108 | a failed lookup answers processed together with the error; otherwise the answer is whether the metadata is marked |
| GcsBucket.MarkKeepsMetadata | beater/storage/gcsbucket.go:110-129 | a failed lookup changes nothing; otherwise only the named object changes, its other metadata entries stay, and it now reads as processed |
| GcsBucket.NilMetadataMark | beater/storage/gcsbucket.go:116-121 | nil metadata becomes a map holding just key to "processed", which counts as marked |
| GcsBucket.ListIsUnmarked | beater/storage/gcsbucket.go:131-155 | with no outage: the unmarked names in iteration order, and no error; with an outage: the names gathered before it, with its error |
| GcsBucket.ListDistinct | beater/storage/gcsbucket.go:131-155 | a bucket's listing has no repeats |
| GcsBucket.MarkHides | beater/storage/gcsbucket.go:110-129 | after a successful mark the path is not listed |
| GcsBucket.RefusedWriteRelists | beater/storage/gcsbucket.go:86-88 | when writes are refused but reads work, `Remove` always fails with the write error and `MarkProcessed` of an existing object does too; nothing changes, and an unmarked file is listed again |
| GcsBucket.GcsStorageProvider.constructor | beater/storage/gcsbucket.go:53-59 | the given bucket, objects, outage, write error and metadata key |
| GcsBucket.GcsStorageProvider.GetAttrs | beater/storage/gcsbucket.go:78-80 | returns `Attrs` of the state |
| GcsBucket.GcsStorageProvider.Read | beater/storage/gcsbucket.go:82-84 | returns `Opened` of the state |
| GcsBucket.GcsStorageProvider.Remove | beater/storage/gcsbucket.go:86-88 | returns `Removed` of the old state, which becomes the new state |
| GcsBucket.GcsStorageProvider.WasProcessed | beater/storage/gcsbucket.go:100-108 | returns `Lookup` of the state |
| GcsBucket.GcsStorageProvider.MarkProcessed | beater/storage/gcsbucket.go:110-129 | returns `Marked` of the old state, which becomes the new state |
| GcsBucket.GcsStorageProvider.ListUnprocessed | beater/storage/gcsbucket.go:131-155 | returns `Unprocessed` of the state |
| GcsBucket.WalkObjects | beater/storage/gcsbucket.go:136-152 | the iteration loop collects the unmarked names of the objects it reaches, in order |
| GcsBucket.NewGcpStorageProvider | beater/storage/gcsbucket.go:36-60 | a client error is returned; otherwise a fresh provider over the connected bucket with the configured key |
| BaseProvider.MarkHides | beater/storage/storage_test.go:57-66 | for either base provider, a successful mark makes the path read as processed and hides it from the listing |
| BaseProvider.ListDistinct | beater/storage/storage.go:25 | base listings have no repeats |
| BaseProvider.RemoveKeepsValid | beater/storage/storage.go:27 | a removal keeps the provider's state well formed |
| BaseProvider.Provider.ListUnprocessed | beater/storage/storage.go:25 | dispatches to the chosen provider: `Unprocessed` of the state |
| BaseProvider.Provider.Read | beater/storage/storage.go:26 | dispatches: `Opened` of the state |
| BaseProvider.Provider.Remove | beater/storage/storage.go:27 | dispatches: `Removed` of the old state |
| BaseProvider.Provider.WasProcessed | beater/storage/storage.go:28 | dispatches: `Lookup` of the state |
| BaseProvider.Provider.MarkProcessed | beater/storage/storage.go:29 | dispatches: `Marked` of the old state |
| Logging.MarkHides | beater/storage/storage_test.go:57-66 | through any stack of layers, a successful mark hides the path and it reads as processed |
| Logging.ListDistinct | beater/storage/logging.go:35-45 | the outermost listing has no repeats |
| Logging.Wrapped.ListUnprocessed | beater/storage/storage.go:25 | the wrapped provider, base or middleware: `Unprocessed` of its state |
| Logging.Wrapped.Read | beater/storage/storage.go:26 | the wrapped provider's `Opened` |
| Logging.Wrapped.Remove | beater/storage/storage.go:27 | the wrapped provider's `Removed` |
| Logging.Wrapped.WasProcessed | beater/storage/storage.go:28 | the wrapped provider's `Lookup` |
| Logging.Wrapped.MarkProcessed | beater/storage/storage.go:29 | the wrapped provider's `Marked` |
| Logging.LoggingStorageProvider.ListUnprocessed | beater/storage/logging.go:35-45 | exactly the wrapped files and error |
| Logging.LoggingStorageProvider.Read | beater/storage/logging.go:47-57 | exactly the wrapped reader or error |
| Logging.LoggingStorageProvider.Remove | beater/storage/logging.go:59-69 | exactly the wrapped error and effect |
| Logging.LoggingStorageProvider.WasProcessed | beater/storage/logging.go:71-81 | exactly the wrapped answer and error |
| Logging.LoggingStorageProvider.MarkProcessed | beater/storage/logging.go:83-93 | exactly the wrapped error and effect |
| Storage.BaseOf | beater/storage/storage.go:42-49 | a `file://` id gives the afero provider; any other id gives GCS with the configured key, or the connection error |
| Storage.StackOf | beater/storage/storage.go:32-63 | a base error is returned; the local-processed layer is present iff the DB path is set, and it wraps the base |
| Storage.AferoNeverFails | beater/storage/storage.go:43-45 | a `file://` id without a DB path always yields a plain afero provider with nothing processed |
| Storage.NewBaseStorageProvider | beater/storage/storage.go:42-49 | succeeds iff `BaseOf` does, and the fresh provider's state is that base |
| Storage.WrapWithMiddleware | beater/storage/storage.go:51-63 | the middleware is added iff the DB path is set; its errors are returned; logging is always outermost |
| Storage.NewStorageProvider | beater/storage/storage.go:32-40 | succeeds iff `StackOf` does; the fresh provider's state is that stack |
| Config.TrimSpaceCuts | config/config.go:49 | the trimmed key is a slice of the key with whitespace only before and after it, and it neither starts nor ends with whitespace |
| Config.TrimSpaceIdempotent | config/config.go:49 | trimming twice is trimming once |
| Config.BlankKey | config/config_test.go:81-96 | a whitespace-only key trims to "" and " gcsbeat\n" trims to "gcsbeat" |
| Config.GetAndValidateConfig | config/config.go:41-69 | an unpack error is wrapped as "error in config file: ..."; an accepted config has a positive interval, compilable globs and a non-blank trimmed key |
| Config.ValidationOrder | config/config.go:52-66 | checks interval, then match, then exclude, then key, returning the first failure, and otherwise the config with the key trimmed |
| Config.AcceptedKeepsFields | config/config.go:42-68 | an accepted config is the unpacked one with only the key trimmed |
| Config.DefaultsAreValid | config/config.go:31-39 | the defaults (60 s, "*", "", "x-goog-meta-gcsbeat") pass validation, and their key is already trimmed |
| Beat.FilterNew | beater/gcsbeat.go:118-129 | the three filter passes return `Selected` |
| Beat.SelectedPaths | beater/gcsbeat.go:118-129 | a path is enqueued iff listed, not pending, matched and not excluded; in listing order, and without repeats when the listing has none |
| Beat.SelectedMembers | beater/gcsbeat.go:118-129 | a path is selected iff listed, not pending, matched, and not (exclusion on and excluded) |
| Beat.SelectedOrder | beater/gcsbeat.go:118-129 | the selection is a subsequence of the listing and keeps it repeat-free |
| Beat.EmptyExcludeKeepsAll | beater/gcsbeat.go:126-128 | an empty exclude pattern removes nothing |
| Beat.OutcomeFinalisesOnlyClean | beater/gcsbeat.go:152-196 | close-out only after a clean read, a known codec and a codec ending without error; a failed read or unknown codec publishes nothing; published records carry the path and lines 1, 2, ... |
| Beat.Collect | beater/gcsbeat.go:181-188 | the `Next` loop publishes every record of the cursor once, in order, and ends with its final error |
| Beat.Beat.constructor | beater/gcsbeat.go:55-61 | nothing pending, queued or published |
| Beat.Beat.Enqueue | beater/gcsbeat.go:132-137 | each survivor is queued in order and added to the pending set; nothing else changes |
| Beat.Beat.Tick | beater/gcsbeat.go:113-137 | a listing error queues nothing; otherwise the selection is queued; pending only grows, by exactly what was queued |
| Beat.Beat.Accept | beater/gcsbeat.go:118-137 | queues the selection of a listing and adds it to pending |
| Beat.Beat.CloseOutFile | beater/gcsbeat.go:198-204 | `Remove` when delete is set, otherwise `MarkProcessed` |
| Beat.Beat.Fetch | beater/gcsbeat.go:155-193 | the records a download publishes and whether it closes out, as `Outcome`; storage unchanged |
| Beat.Beat.DownloadFile | beater/gcsbeat.go:152-196 | publishes the outcome's records; closes out iff the outcome is clean, and otherwise leaves storage alone |
| Beat.Connect | beater/gcsbeat.go:50-53 | a storage error becomes "Error connecting to bucket: ..."; otherwise the stack of `StackOf` |
| Beat.NewBeat | beater/gcsbeat.go:44-64 | config errors and connection errors are returned; otherwise a fresh beat with that config and storage and empty queues |
| LegacyStorage.IsMarkedAsProcessed | beater/storageprovider.go:196-204 | true iff the metadata is non-nil and maps "x-goog-meta-gcsbeat" to "processed" |
| LegacyStorage.MarkIsFixedKey | beater/storageprovider.go:196-204 | marking uses the fixed key "x-goog-meta-gcsbeat" with value "processed"; nil metadata is unmarked |
| LegacyStorage.ListAgrees | beater/storageprovider.go:114-130 | the older afero listing equals the newer one |
| LegacyStorage.ListIsUnprocessed | beater/storageprovider.go:114-130 | a read error gives nil and the error; otherwise the entries not processed, in order, without repeats |
| LegacyStorage.RemoveLeavesProcessed | beater/storageprovider.go:136-138 | `Remove` only deletes the file; an unprocessed removed path still reads unprocessed, unlike the newer provider |
| LegacyStorage.RemoveTwice | beater/storageprovider.go:136-138 | `Remove` succeeds iff the file exists, and a second one fails |
| LegacyStorage.MarkHides | beater/storageprovider.go:145-148 | marking is idempotent and hides the path from the listing |
| LegacyStorage.AferoStorageProvider.constructor | beater/storageprovider.go:103-105 | the directory with an empty processed map |
| LegacyStorage.AferoStorageProvider.ListUnprocessed | beater/storageprovider.go:114-130 | the loop over entries returns the older listing of the state |
| LegacyStorage.AferoStorageProvider.Read | beater/storageprovider.go:132-134 | opens the file |
| LegacyStorage.AferoStorageProvider.Remove | beater/storageprovider.go:136-138 | deletes the file and leaves the processed map alone |
| LegacyStorage.AferoStorageProvider.WasProcessed | beater/storageprovider.go:140-143 | key membership, never an error |
| LegacyStorage.AferoStorageProvider.MarkProcessed | beater/storageprovider.go:145-148 | stores true under the path and succeeds |
| LegacyStorage.ListNeverAdvances | beater/storageprovider.go:242-254 | the loop returns only when the first iterator step is Done or an error; an unmarked first object is listed once per pass, forever |
| LegacyStorage.OneObjectLoops | beater/storageprovider.go:242-254 | a bucket holding only an unmarked "a.log" never returns and repeats "a.log", where the newer listing returns ["a.log"] |
| LegacyStorage.GcpStorageProvider.constructor | beater/storageprovider.go:166 | the bucket and objects with the fixed metadata key |
| LegacyStorage.GcpStorageProvider.GetAttrs | beater/storageprovider.go:184-186 | the object's attributes or the lookup error |
| LegacyStorage.GcpStorageProvider.Read | beater/storageprovider.go:188-190 | opens the object |
| LegacyStorage.GcpStorageProvider.Remove | beater/storageprovider.go:192-194 | deletes the object |
| LegacyStorage.GcpStorageProvider.WasProcessed | beater/storageprovider.go:206-214 | true with the error on a failed lookup, else whether the object is marked |
| LegacyStorage.GcpStorageProvider.MarkProcessed | beater/storageprovider.go:216-235 | adds the fixed key to "processed" and keeps the other entries; a failed lookup changes nothing |
| LegacyStorage.GcpStorageProvider.FirstStep | beater/storageprovider.go:240-242 | the single iterator step: the first object, the outage error, or Done |
| LegacyStorage.GcpStorageProvider.ListUnprocessed | beater/storageprovider.go:237-257 | the loop as written, over a bounded number of passes, returns `Listing` |
| LegacyStorage.NewGcpStorageProvider | beater/storageprovider.go:150-167 | a client error is returned; otherwise a fresh provider over the connected bucket |
| LegacyStorage.LookupErrorMeansProcessed | beater/storageprovider.go:206-214 | for either older provider, a lookup error comes with the answer processed |
| LegacyStorage.LoggingStorageProvider.constructor | beater/storageprovider.go:31-36 | wraps the given provider |
| LegacyStorage.LoggingStorageProvider.ListUnprocessed | beater/storageprovider.go:43-53 | exactly the wrapped listing |
| LegacyStorage.LoggingStorageProvider.Read | beater/storageprovider.go:55-65 | exactly the wrapped reader or error |
| LegacyStorage.LoggingStorageProvider.Remove | beater/storageprovider.go:67-77 | exactly the wrapped error and effect |
| LegacyStorage.LoggingStorageProvider.WasProcessed | beater/storageprovider.go:79-89 | exactly the wrapped answer and error |
| LegacyStorage.LoggingStorageProvider.MarkProcessed | beater/storageprovider.go:91-101 | exactly the wrapped error and effect |

## Left out

- Concurrency is not modelled: the goroutines, the download channel, the tickers, `done`, `Run` and `Stop`. A tick and a download are sequential methods, and the queue is a sequence.
- Network and cloud-client calls become state. A bucket is a sequence of objects with metadata and a reader per object, which may fail part-way. An optional outage makes every call fail and stops the iterator after a prefix. An optional write error makes every delete and metadata update fail while reads still work. The connection is a function parameter. Credentials and `GetUserAgent` are not modelled.
- The bolt DB is a map from bucket name to entries. File permissions and transactions are not modelled. The only creation error modelled is an empty bucket name.
- The afero filesystems (OS, base-path, in-memory) are a directory value: a sorted listing, a reader per file (which may fail part-way), and a read error for the listing.
- Afero.Removed: a failing `fs.Remove` (a permission error on a file that exists) is not modelled, because the directory value has no write-error field. Only a missing file makes the delete fail.
- Afero.Directory: subdirectories are not modelled. `afero.ReadDir` lists them and `ListUnprocessed` would return their names, but `Directory.Valid` makes the listing exactly the names of the files.
- Io.AsText: a Go string is modelled as one character per byte in the codecs, but as code points in `Config.IsSpace`. Non-ASCII text is therefore not modelled consistently between them. A multi-byte UTF-8 sequence becomes several characters, and a byte such as 0x85 or 0xA0 would count as a space if the config's bytes were taken one at a time.
- The JSON grammar and decoded values, floats included, are not modelled. The decoder is a parameter giving the first token and a sequence of decode outcomes.
- Gzip contents are not modelled. The gunzip step is a function parameter, applied iff unpacking is on and the path ends in `.gz`.
- Glob compilation and matching are not modelled. They are abstract predicates.
- The scanner's 64 KiB token limit and its carriage-return stripping are not modelled. The model splits on `\n` only.
- Bufio.BufioCodec.Err: Go's `bufio.Scanner` records a read error as soon as a `Read` returns it, so `Err` can report it while `Scan` still returns buffered lines. The model's reader has no chunking, so it reports the read error only after the last line, and `None` before that. The one caller reads `Err` only after `Next` has returned false, and there both agree.
- Codec.Escape: `%q` is modelled only for `"`, `\`, newline, tab and carriage return. Non-printable and non-ASCII characters are not escaped.
- The partial map a failed JSON decode leaves is not modelled. A failed decode's value is the empty object.
- Event timestamps (`time.Now`), all log output and `initializeExplainLogger` are not modelled.
- `common.Config.Unpack` is a function parameter that yields a config or an error. The required-bucket-id rule lives inside it.
- The fields `Codec`, `UnpackGzip` and `ProcessedDbPath` are used but are not in `config/config.go:16-29`. They are extra config fields with Go's zero defaults.
- `GetAndValidateConfig` does not check the codec id. The model follows that code. An unknown codec surfaces only when a file is downloaded.
- Beat.Beat.Tick: `pendingFiles` only ever grows, because nothing in the code removes from it. A file whose download failed is therefore not enqueued again in the same run.
- Beat.Beat.DownloadFile: the published events are collected and then appended, rather than sent one at a time to a client.
- The GCS `processedCache` map is never read or written after construction, so it is not modelled.
- Error texts from libraries are opaque strings.
- LegacyStorage.GcpStorageProvider.ListUnprocessed: a loop that never terminates cannot be a Dafny method. The listing is modelled with a bound on the number of passes, and a call that would run forever returns `returned == false` once the bound is reached.
- LegacyStorage.LoggingStorageProvider wraps only the two older providers, which are the only ones in that file.
- `main.go`, `cmd/root.go` and `tests/system/test_base.py` are CLI wiring and a Python system-test driver and are not part of this model.

## Findings

| source | as written | input that shows it | evidently intended | confidence | as-written member | corrected member |
|---|---|---|---|---|---|---|
| beater/storageprovider.go:242 | `for objAttrs, err := it.Next(); err != iterator.Done; {` calls `it.Next()` once, and the loop has no post statement | a bucket holding one unmarked object "a.log": the loop appends "a.log" on every pass and never returns; with a marked first object it spins without appending | call `it.Next()` on every pass, as `beater/storage/gcsbucket.go:136-137` does, and return the unmarked names once | high (not executed) | LegacyStorage.OneObjectLoops | GcsBucket.ListIsUnmarked |
