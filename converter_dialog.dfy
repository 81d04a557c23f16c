/**
 * The conversion dialog stripped of its widgets: the additional-option
 * checkboxes become a map from option id to "selected", the "open converted
 * files" checkbox and the Convert button's enabled state become booleans,
 * the output panel becomes a string, and what `doOK` sets off (a warning,
 * the background worker, saving the state, closing) is recorded in `events`.
 */
module ConverterDialogModel {
  import opened Wrappers
  import opened JavaFile
  import opened AdditionalOptions

  /** The values the persister hands back when it restores the dialog, and saves. */
  datatype SavedState = SavedState(outputFolder: string, openConvertedFiles: bool, optionValues: map<string, bool>)

  /** What the dialog sets off outside itself. */
  datatype Event =
    | WarningShown                            // the empty-output-folder warning
    | WorkerStarted(converterType: Option<string>) // a ConverterWorker for this type was executed
    | StateSaved(state: SavedState)           // the persister saved this state
    | Closed                                  // the dialog was closed with OK

  /**
   * The default output folder: a folder named "output" beside the given file.
   * A file with no parent yields Java's string for `null` in its place.
   */
  function DefaultOutputFolder(lastFile: File): (folder: string)
    ensures |folder| >= 7 && folder[|folder| - 7..] == [Separator] + "output"
    ensures Parent(lastFile).Some? ==>
              |folder| - 7 < |lastFile.path| && folder[..|folder| - 7] == lastFile.path[..|folder| - 7]
    ensures Parent(lastFile).Some? ==> folder == Parent(lastFile).value + [Separator] + "output"
    ensures Parent(lastFile).None? ==> folder == "null/output"
  {
    var parent := match Parent(lastFile) case Some(p) => p case None => "null";
    parent + [Separator] + "output"
  }

  /** `getAdditionalOptionValue`: null for an id that is not registered, its flag otherwise. */
  function OptionValue(options: map<string, bool>, id: string): (value: Option<bool>)
    ensures value.Some? <==> id in options
    ensures value.Some? ==> value.value == options[id]
  {
    if id in options then Some(options[id]) else None
  }

  /** `setAdditionalOptionValue`: only a registered id is changed; the ids stay the same. */
  function WithOptionValue(options: map<string, bool>, id: string, state: bool): (r: map<string, bool>)
    ensures r.Keys == options.Keys
    ensures id in options ==> r[id] == state
    ensures forall o :: o in options && o != id ==> r[o] == options[o]
    ensures id !in options ==> r == options
  {
    if id in options then options[id := state] else options
  }

  /**
   * The loop of `initGUI`: one fresh, unselected checkbox per imposed
   * option, put in the map in list order.
   */
  function RegisterOptions(options: map<string, bool>, imposed: seq<string>): (r: map<string, bool>)
    ensures r.Keys == options.Keys + (set o | o in imposed)
    ensures forall o :: o in imposed ==> o in r && !r[o]
    ensures forall o :: o in options && o !in imposed ==> r[o] == options[o]
    decreases |imposed|
  {
    if imposed == [] then options
    else RegisterOptions(options, imposed[..|imposed| - 1])[imposed[|imposed| - 1] := false]
  }

  /**
   * Restoring saved option flags: a saved value reaches a registered option
   * only (as `setAdditionalOptionValue` allows); the registered ids do not change.
   */
  function ApplySavedOptions(options: map<string, bool>, saved: map<string, bool>): (r: map<string, bool>)
    ensures r.Keys == options.Keys
    ensures forall o :: o in options && o in saved ==> r[o] == saved[o]
    ensures forall o :: o in options && o !in saved ==> r[o] == options[o]
  {
    map o | o in options :: if o in saved then saved[o] else options[o]
  }

  /** A set after a get: the get sees the new flag, every other id is untouched. */
  lemma GetAfterSet(options: map<string, bool>, id: string, state: bool, other: string)
    requires other != id
    ensures OptionValue(WithOptionValue(options, id, state), id) == (if id in options then Some(state) else None)
    ensures OptionValue(WithOptionValue(options, id, state), other) == OptionValue(options, other)
  {
  }

  /** After construction, the registered option ids are exactly those the conversion type imposes. */
  lemma InitialOptionsAreImposed(converterType: Option<string>, saved: map<string, bool>)
    ensures ApplySavedOptions(RegisterOptions(map[], ImposedAdditionalOptions(converterType)), saved).Keys
         == ImposedSet(converterType)
  {
  }

  class ConverterDialog {
    /** The type of conversion the dialog was opened for. */
    const converterType: Option<string>
    /** The files listed in the input table. */
    var inputFiles: seq<File>
    /** The text of the output folder field. */
    var outputPath: string
    /** Whether the "open converted files" checkbox is selected. */
    var openConvertedFiles: bool
    /** Whether the Convert (OK) button is enabled. */
    var convertEnabled: bool
    /** Additional option id -> whether its checkbox is selected. */
    var additionalOptions: map<string, bool>
    /** What the dialog has set off, oldest first. */
    var events: seq<Event>

    /** The registered options are those the conversion type imposes. */
    ghost predicate Valid()
      reads this
    {
      additionalOptions.Keys == ImposedSet(converterType)
    }

    /** What the persister reads from the dialog when it saves. */
    function Snapshot(): SavedState
      reads this
    {
      SavedState(outputPath, openConvertedFiles, additionalOptions)
    }

    /**
     * Builds the dialog, registers the imposed options, lets the persister
     * restore `loaded`, enables Convert exactly when there are files, and,
     * when there are, lists them and points the output folder beside the
     * last one, overriding the restored folder.
     */
    constructor (converterType: Option<string>, toConvertFiles: seq<File>, loaded: SavedState)
      ensures Valid()
      ensures this.converterType == converterType && inputFiles == toConvertFiles
      ensures additionalOptions
           == ApplySavedOptions(RegisterOptions(map[], ImposedAdditionalOptions(converterType)), loaded.optionValues)
      ensures openConvertedFiles == loaded.openConvertedFiles
      ensures convertEnabled <==> toConvertFiles != []
      ensures toConvertFiles != [] ==> outputPath == DefaultOutputFolder(toConvertFiles[|toConvertFiles| - 1])
      ensures toConvertFiles == [] ==> outputPath == loaded.outputFolder
      ensures events == []
    {
      this.converterType := converterType;
      inputFiles := [];
      outputPath := "";
      openConvertedFiles := false;
      convertEnabled := true;
      additionalOptions := map[];
      events := [];
      new;
      InitGUI();
      LoadState(loaded);
      InitialOptionsAreImposed(converterType, loaded.optionValues);
      assert Valid();
      SetEnableConvert(toConvertFiles != []);
      if toConvertFiles != [] {
        inputFiles := toConvertFiles;
        SetOutputFolder(DefaultOutputFolder(toConvertFiles[|toConvertFiles| - 1]));
      }
    }

    /** `initGUI`: one unselected checkbox per option the conversion type imposes. */
    method InitGUI()
      modifies this`additionalOptions
      ensures additionalOptions == RegisterOptions(old(additionalOptions), ImposedAdditionalOptions(converterType))
    {
      var imposedOptions := ImposedAdditionalOptions(converterType);
      for i := 0 to |imposedOptions|
        invariant additionalOptions == RegisterOptions(old(additionalOptions), imposedOptions[..i])
      {
        assert imposedOptions[..i + 1][..i] == imposedOptions[..i];
        additionalOptions := additionalOptions[imposedOptions[i] := false];
      }
      assert imposedOptions[..|imposedOptions|] == imposedOptions;
    }

    /**
     * The persister's `loadState`: the folder and the open-files flag through
     * their setters, the saved option flags applied to the registered options.
     */
    method LoadState(loaded: SavedState)
      modifies this`outputPath, this`openConvertedFiles, this`additionalOptions
      ensures outputPath == loaded.outputFolder && openConvertedFiles == loaded.openConvertedFiles
      ensures additionalOptions == ApplySavedOptions(old(additionalOptions), loaded.optionValues)
    {
      SetOutputFolder(loaded.outputFolder);
      SetOpenConvertedFiles(loaded.openConvertedFiles);
      additionalOptions := ApplySavedOptions(additionalOptions, loaded.optionValues);
    }

    /**
     * `doOK`: with an empty output folder only a warning is shown; otherwise
     * the worker is started, then the state is saved, then the dialog closes.
     */
    method DoOK()
      modifies this`events
      ensures outputPath == "" ==> events == old(events) + [WarningShown]
      ensures outputPath != "" ==> events == old(events) + [WorkerStarted(converterType), StateSaved(Snapshot()), Closed]
    {
      if outputPath == "" {
        events := events + [WarningShown];
      } else {
        events := events + [WorkerStarted(converterType)];
        events := events + [StateSaved(Snapshot())];
        events := events + [Closed];
      }
    }

    /** `getInputFiles`. */
    method GetInputFiles() returns (files: seq<File>)
      ensures files == inputFiles
    {
      files := inputFiles;
    }

    /** `getOutputFolder`: the folder named by the output field, its path normalised as `new File` does. */
    method GetOutputFolder() returns (folder: File)
      ensures folder.path == Normalize(outputPath)
      ensures IsNormalized(folder.path)
    {
      folder := File(Normalize(outputPath));
    }

    /** `setOutputFolder`. */
    method SetOutputFolder(text: string)
      modifies this`outputPath
      ensures outputPath == text
    {
      outputPath := text;
    }

    /** `setEnableConvert`. */
    method SetEnableConvert(state: bool)
      modifies this`convertEnabled
      ensures convertEnabled == state
    {
      convertEnabled := state;
    }

    /** `mustOpenConvertedFiles`. */
    method MustOpenConvertedFiles() returns (open: bool)
      ensures open == openConvertedFiles
    {
      open := openConvertedFiles;
    }

    /** `setOpenConvertedFiles`: a later `MustOpenConvertedFiles` returns `state`. */
    method SetOpenConvertedFiles(state: bool)
      modifies this`openConvertedFiles
      ensures openConvertedFiles == state
    {
      openConvertedFiles := state;
    }

    /** `getAdditionalOptionValue`: null for an id that is not registered. */
    method GetAdditionalOptionValue(additionalOptionId: string) returns (value: Option<bool>)
      ensures value == OptionValue(additionalOptions, additionalOptionId)
    {
      value := None;
      if additionalOptionId in additionalOptions {
        value := Some(additionalOptions[additionalOptionId]);
      }
    }

    /** `getAdditionalOptions`: the registered ids, which are the imposed ones. */
    method GetAdditionalOptions() returns (ids: set<string>)
      requires Valid()
      ensures ids == ImposedSet(converterType)
      ensures forall o :: o in ids ==> TranslationTagFor(o).Some?
    {
      ids := additionalOptions.Keys;
    }

    /** `setAdditionalOptionValue`: changes a registered option only. */
    method SetAdditionalOptionValue(additionalOptionId: string, state: bool)
      requires Valid()
      modifies this`additionalOptions
      ensures Valid()
      ensures additionalOptions == WithOptionValue(old(additionalOptions), additionalOptionId, state)
    {
      if additionalOptionId in additionalOptions {
        additionalOptions := additionalOptions[additionalOptionId := state];
      }
    }
  }
}
