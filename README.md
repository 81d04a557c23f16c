# Batch resources converter: converter chain and conversion dialog

A Dafny model of the core of an Oxygen XML plugin that converts Markdown and
Word-derived HTML into XHTML and DITA. It covers:

- the `Converter` interface: one conversion step that turns a file, or an
  in-memory content reader given in its place, into the whole converted text
  or a `TransformerException` (`converters.dfy`, module `Converters`);
- `MarkdownToXhmlConverter`, the two-stage chain Markdown -> HTML -> XHTML
  (`converters.dfy`);
- `ConverterAdditionalOptionsProvider`, the options a conversion type imposes
  and the option -> translation tag table (`options_provider.dfy`, module
  `AdditionalOptions`);
- `ConverterDialog` without its widgets: a class holding the option map,
  the output folder, the "open converted files" flag, the Convert button's
  enabled flag and a log of what `doOK` sets off (`converter_dialog.dfy`,
  module `ConverterDialogModel`);
- the pieces of `java.io.File` the dialog relies on: a path, how
  `new File` normalises it, and its parent (`java_file.dfy`, module `JavaFile`), and `null`/exceptions as
  `Option`/`Result` (`wrappers.dfy`).

The two XSLT-backed stages are function values of type `Transform`. A
stage is given the original file location, the document text already chosen
by the reader rule, and the transformer creator, so the facts about the
chain hold for every stage of that shape (see "## Left out" for what that
shape assumes). Reading the original file
is a lookup in a `FileSystem` map given as a parameter. A stage that cannot
read its source fails with `SourceUnreadable`, and a failing transform fails
with `TransformFailed`; both are `TransformerException` in the source.

The interface documentation of `Converter` says that a non-null content
reader is processed instead of the file. `MarkdownToXhmlConverter` calls its
first stage with `null`, so it converts the file and ignores the caller's
reader. The model follows the code (`MarkdownToXhtml`), and shows the gap
under "## Findings".

## Model

| member | source | states |
|---|---|---|
| `Converters.Document` | src/main/java/com/oxygenxml/resources/batch/converter/converters/Converter.java:21-25 | a given content reader is the document; without one the original file is; an unreadable file is an error |
| `Converters.Convert` | src/main/java/com/oxygenxml/resources/batch/converter/converters/Converter.java:18-32 | a step either fails with the error of reading its document or returns the stage's whole text for that document, located at the original file |
| `Converters.ConvertReaderOverridesFile` | src/main/java/com/oxygenxml/resources/batch/converter/converters/Converter.java:23-25 | with a reader, the result is the stage applied to the reader's text, the same for any file contents |
| `Converters.ConvertWithoutReaderReadsFile` | src/main/java/com/oxygenxml/resources/batch/converter/converters/Converter.java:21-25 | with no reader, the document converted is the original file's content, and a missing file is a failure |
| `Converters.ConvertHonoursContentReader` | src/main/java/com/oxygenxml/resources/batch/converter/converters/Converter.java:23-25 | every single stage keeps the interface's promise that a reader replaces the file |
| `Converters.MarkdownToXhtml` | src/main/java/com/oxygenxml/resources/batch/converter/converters/MarkdownToXhmlConverter.java:14-25 | a Markdown-stage failure is the chain's result; otherwise the result is the XHTML stage applied to the HTML text, at the original file, with the same creator |
| `Converters.MarkdownToXhtmlIgnoresContentReader` | src/main/java/com/oxygenxml/resources/batch/converter/converters/MarkdownToXhmlConverter.java:21 | the chain's result is the same whatever reader the caller passes |
| `Converters.MarkdownToXhtmlFirstFailure` | src/main/java/com/oxygenxml/resources/batch/converter/converters/MarkdownToXhmlConverter.java:15-21 | when the Markdown stage fails with e, the chain fails with e whatever the second stage is |
| `Converters.MarkdownToXhtmlOutcome` | src/main/java/com/oxygenxml/resources/batch/converter/converters/MarkdownToXhmlConverter.java:21-23 | after the Markdown stage yields html, the chain's result is the XHTML stage's result on html as it is: its text, or its error with no partial text |
| `Converters.MarkdownToXhtmlReadsOnlyOriginalFile` | src/main/java/com/oxygenxml/resources/batch/converter/converters/MarkdownToXhmlConverter.java:21-23 | two file systems that agree on the original file give the same result |
| `Converters.MarkdownToXhtmlBreaksReaderContract` | src/main/java/com/oxygenxml/resources/batch/converter/converters/MarkdownToXhmlConverter.java:21 | with pass-through stages the chain converts the file, not the given reader, so it does not keep the interface's promise |
| `Converters.MarkdownToXhtmlWithReader` | src/main/java/com/oxygenxml/resources/batch/converter/converters/MarkdownToXhmlConverter.java:21-23 | the chain with the caller's reader passed to the Markdown stage; failure of that stage propagates, else the XHTML stage's result |
| `Converters.MarkdownToXhtmlWithReaderHonoursReader` | src/main/java/com/oxygenxml/resources/batch/converter/converters/Converter.java:23-25 | the corrected chain keeps the reader promise for all stages and equals the chain as written when no reader is given |
| `AdditionalOptions.ImposedAdditionalOptions` | src/main/java/com/oxygenxml/resources/batch/converter/view/ConverterAdditionalOptionsProvider.java:40-46 | Word -> DITA imposes exactly the DITA-map option, every other type (null included) nothing; at most one entry, no repeats, each with a translation tag |
| `AdditionalOptions.TranslationTagFor` | src/main/java/com/oxygenxml/resources/batch/converter/view/ConverterAdditionalOptionsProvider.java:22-57 | the DITA-map option has the DITA-map tag; every other id has null |
| `AdditionalOptions.ImposedNonEmptyOnlyForWordToDita` | src/main/java/com/oxygenxml/resources/batch/converter/view/ConverterAdditionalOptionsProvider.java:40-46 | a type imposes something iff it is Word -> DITA, and then the set is exactly the DITA-map option |
| `JavaFile.Parent` | src/main/java/com/oxygenxml/resources/batch/converter/view/ConverterDialog.java:119 | the parent of a file is its path cut at the last separator (or the root itself when that separator is the root, never shorter than the root prefix), and is null exactly when the path has no separator or is the root |
| `ConverterDialogModel.DefaultOutputFolder` | src/main/java/com/oxygenxml/resources/batch/converter/view/ConverterDialog.java:116-120 | the default folder is the last file's parent path followed by "/output", or "null/output" for a file with no parent |
| `ConverterDialogModel.OptionValue` | src/main/java/com/oxygenxml/resources/batch/converter/view/ConverterDialog.java:242-250 | null exactly for unregistered ids, the stored flag otherwise |
| `ConverterDialogModel.WithOptionValue` | src/main/java/com/oxygenxml/resources/batch/converter/view/ConverterDialog.java:257-263 | a set keeps the ids, changes a registered id's flag only, and changes nothing for an unregistered id |
| `ConverterDialogModel.RegisterOptions` | src/main/java/com/oxygenxml/resources/batch/converter/view/ConverterDialog.java:155-162 | registering adds exactly the imposed ids, each unselected, and keeps the other entries |
| `ConverterDialogModel.ApplySavedOptions` | src/main/java/com/oxygenxml/resources/batch/converter/view/ConverterDialog.java:106 | restoring keeps the registered ids and takes a saved flag only for a registered id |
| `ConverterDialogModel.GetAfterSet` | src/main/java/com/oxygenxml/resources/batch/converter/view/ConverterDialog.java:242-263 | a get after a set returns the new flag for a registered id, null for an unregistered one, and the old value for every other id |
| `ConverterDialogModel.InitialOptionsAreImposed` | src/main/java/com/oxygenxml/resources/batch/converter/view/ConverterDialog.java:155-162 | after construction the registered ids are exactly those the conversion type imposes |
| `ConverterDialogModel.ConverterDialog.constructor` | src/main/java/com/oxygenxml/resources/batch/converter/view/ConverterDialog.java:93-123 | options are the imposed ones with restored flags; Convert is enabled iff there are files; with files the output folder is beside the last file, overriding the restored one |
| `ConverterDialogModel.ConverterDialog.InitGUI` | src/main/java/com/oxygenxml/resources/batch/converter/view/ConverterDialog.java:155-162 | the loop registers one unselected option per imposed id |
| `ConverterDialogModel.ConverterDialog.LoadState` | src/main/java/com/oxygenxml/resources/batch/converter/view/ConverterDialog.java:105-106 | restoring sets the folder and the open-files flag through their setters, and applies saved flags to the registered options only, as ApplySavedOptions says |
| `ConverterDialogModel.ConverterDialog.DoOK` | src/main/java/com/oxygenxml/resources/batch/converter/view/ConverterDialog.java:171-202 | an empty output path only shows a warning; otherwise the worker starts, then the current state is saved, then the dialog closes |
| `ConverterDialogModel.ConverterDialog.GetInputFiles` | src/main/java/com/oxygenxml/resources/batch/converter/view/ConverterDialog.java:204-207 | returns the listed input files |
| `ConverterDialogModel.ConverterDialog.GetOutputFolder` | src/main/java/com/oxygenxml/resources/batch/converter/view/ConverterDialog.java:210-213 | returns the folder named by the output field, with its path normalised as `new File` does |
| `JavaFile.Normalize` | src/main/java/com/oxygenxml/resources/batch/converter/view/ConverterDialog.java:212 | the path `new File` keeps has no repeated separator and no trailing one except the root, and is empty only for an empty text |
| `JavaFile.NormalizeIdempotent` | src/main/java/com/oxygenxml/resources/batch/converter/view/ConverterDialog.java:212 | an already normalised path is kept as it is, so normalising twice is normalising once |
| `JavaFile.CollapseDropsDoubled` | src/main/java/com/oxygenxml/resources/batch/converter/view/ConverterDialog.java:212 | collapsing separator runs treats a doubled separator anywhere in a path as a single one |
| `JavaFile.NormalizeDropsDoubledSeparator` | src/main/java/com/oxygenxml/resources/batch/converter/view/ConverterDialog.java:212 | the normalised path of a text with a doubled separator is that of the text with a single one |
| `JavaFile.NormalizeDropsTrailingSeparator` | src/main/java/com/oxygenxml/resources/batch/converter/view/ConverterDialog.java:212 | a trailing separator on a non-empty path makes no difference to its normalised path, so only the root keeps one |
| `ConverterDialogModel.ConverterDialog.SetOutputFolder` | src/main/java/com/oxygenxml/resources/batch/converter/view/ConverterDialog.java:216-219 | the output field becomes the given text, nothing else changes |
| `ConverterDialogModel.ConverterDialog.SetEnableConvert` | src/main/java/com/oxygenxml/resources/batch/converter/view/ConverterDialog.java:222-225 | the Convert button's enabled flag becomes the given state, nothing else changes |
| `ConverterDialogModel.ConverterDialog.MustOpenConvertedFiles` | src/main/java/com/oxygenxml/resources/batch/converter/view/ConverterDialog.java:232-235 | returns the "open converted files" flag |
| `ConverterDialogModel.ConverterDialog.SetOpenConvertedFiles` | src/main/java/com/oxygenxml/resources/batch/converter/view/ConverterDialog.java:237-240 | the flag becomes the given state, so a following MustOpenConvertedFiles returns it |
| `ConverterDialogModel.ConverterDialog.GetAdditionalOptionValue` | src/main/java/com/oxygenxml/resources/batch/converter/view/ConverterDialog.java:242-250 | returns what OptionValue gives for the current option map: null exactly for unregistered ids, the selected flag otherwise, so GetAfterSet describes a get after SetAdditionalOptionValue |
| `ConverterDialogModel.ConverterDialog.GetAdditionalOptions` | src/main/java/com/oxygenxml/resources/batch/converter/view/ConverterDialog.java:252-255 | the registered ids are the imposed ones, each with a translation tag |
| `ConverterDialogModel.ConverterDialog.SetAdditionalOptionValue` | src/main/java/com/oxygenxml/resources/batch/converter/view/ConverterDialog.java:257-263 | the option map changes as WithOptionValue says, and the registered ids stay the imposed ones |

## Left out

- The Markdown -> HTML and HTML -> XHTML stages, `TransformerFactoryCreator` and the XSLT engine are not part of this model; the stages are arbitrary functions and the creator an opaque handle.
- Converters.ConvertHonoursContentReader, Converters.ConvertReaderOverridesFile and Converters.MarkdownToXhtmlReadsOnlyOriginalFile hold because a `Transform` sees only the file location, the chosen document text and the creator: every stage is assumed to follow the reader rule and to read no file other than its document, so files a stage might read relative to the location are not modelled.
- Reading a file is a map lookup; encodings, URLs and I/O errors other than a missing file are not modelled.
- The literal values of `ConverterTypes.WORD_TO_DITA`, `OptionTags.CREATE_DITA_MAP_FROM_WORD` and `Tags.CREATE_DITA_MAP_OPTION` are defined in files that are not part of this model; the model uses distinct placeholder strings.
- AdditionalOptions.TranslationTagFor: takes a non-null id; with a null id the source also returns null, since the table has no null key.
- Swing layout, sizes, titles, translated labels and the help link (`getHelpPageID` returns a fixed URL) are user interface only.
- `ConverterWorker`, `ProgressDialog` and the cancel listener run on other threads; starting the worker is recorded as a `WorkerStarted` event, and cancellation is not modelled.
- ConverterDialogModel.ConverterDialog.LoadState: `ContentPersister` is not part of this model; its `loadState` is modelled as an arbitrary saved state: the folder and the open-files flag set through their setters, the option flags applied to the registered options by ConverterDialogModel.ApplySavedOptions, and `saveState` as a `StateSaved` event holding the dialog's current values.
- The host's warning dialog is recorded as a `WarningShown` event; closing by `super.doOK()` as `Closed`.
- `InputPanel` and `OutputPanel` are not part of this model: adding files replaces the listed files, and the output field starts empty before the persister restores it.
- ConverterDialogModel.ConverterDialog.GetAdditionalOptions: returns a copy of the ids, whereas the source returns the map's live key-set view.
- JavaFile.Parent: uses '/' as the only separator, and takes the path as already normalised by `java.io.File` (no repeated or trailing separators: `new File("/a/")` has path `/a` and parent `/`, which the model gives only for the path `/a`); Windows drive prefixes and '\' are not modelled.
- `getImposedAdditionalOptions` builds a fresh list per call; the model returns a value, which no caller shares, so the freshness needs no separate statement.
- `BatchConverterInteractor` only declares the methods that the dialog class models.
- `MdToDitaTest` exercises output-path generation and pretty-printing classes that are not part of this model.
- The output-path resolver, result serializer and batch coordinator are not part of this model.

## Findings

| source | as written | input that shows it | evidently intended | confidence | as-written member | corrected member |
|---|---|---|---|---|---|---|
| src/main/java/com/oxygenxml/resources/batch/converter/converters/MarkdownToXhmlConverter.java:21 | the first stage is called with a `null` reader, so the caller's content reader is ignored and the file is read | pass-through stages, file `/notes.md` holding "# file", reader holding "# reader": the result is "# file" | the reader, when given, is converted instead of the file, as the `Converter` interface documents | medium: no caller of this chain is shown, so whether a reader is ever passed to it is unknown; not executed | `Converters.MarkdownToXhtmlBreaksReaderContract` | `Converters.MarkdownToXhtmlWithReaderHonoursReader` |
