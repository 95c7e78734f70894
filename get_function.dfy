/** `getFunction` of src/functions/exec/getfunction.js: a
    "workbook-settings:name" reference is replaced by the code stored under
    that name in the workbook's settings; any other text is code already. */
module SettingsFunctions {
  import opened Strings
  import opened Wrappers
  import opened JsValues

  const SettingsPrefix: string := "workbook-settings:"
  const NoNameMessage: string := "Function name not found in settings reference"

  /** A stored function: its code and, when present, its call line. */
  datatype FunctionData = FunctionData(code: string, resultLine: Option<string>)

  function NotFoundMessage(name: string): string {
    "Function \"" + name + "\" not found in workbook settings"
  }

  /** `ref.replace('workbook-settings:', '').trim()` on a reference. */
  function SettingsName(ref: string): (name: string)
    requires StartsWith(ref, SettingsPrefix)
    ensures name == Trim(ref[|SettingsPrefix|..])
  {
    var rest := ReplaceFirst(ref, SettingsPrefix, "");
    assert rest == ref[|SettingsPrefix|..] by {
      assert "" + ref[|SettingsPrefix|..] == ref[|SettingsPrefix|..];
    }
    Trim(rest)
  }

  /** `code + (resultLine || '')`. */
  function StoredCode(data: FunctionData): (code: string)
    ensures StartsWith(code, data.code)
    ensures data.resultLine.None? ==> code == data.code
  {
    data.code + match data.resultLine case None => "" case Some(line) => line
  }

  /** `getFunction`; `settings` stands for the workbook settings, whose
      lookup returns null for a missing name. */
  function GetFunction(func: string, settings: map<string, FunctionData>): (r: Completion<string>)
    ensures !StartsWith(func, SettingsPrefix) ==> r == Normal(func)
    ensures StartsWith(func, SettingsPrefix) && SettingsName(func) == "" ==> r == Throw(Error(NoNameMessage))
    ensures StartsWith(func, SettingsPrefix) && SettingsName(func) != "" && SettingsName(func) !in settings ==>
      r == Throw(Error(NotFoundMessage(SettingsName(func))))
    ensures StartsWith(func, SettingsPrefix) && SettingsName(func) in settings && SettingsName(func) != "" ==>
      r == Normal(StoredCode(settings[SettingsName(func)]))
  {
    if !StartsWith(func, SettingsPrefix) then Normal(func)
    else
      var name := SettingsName(func);
      if name == "" then Throw(Error(NoNameMessage))
      else if name !in settings then Throw(Error(NotFoundMessage(name)))
      else Normal(StoredCode(settings[name]))
  }

  /** A reference built from a stored name resolves to that entry, and one
      built from an unknown name reports that name. */
  lemma ReferenceRoundTrip(name: string, settings: map<string, FunctionData>)
    requires name != "" && Trim(name) == name
    ensures name in settings ==> GetFunction(SettingsPrefix + name, settings) == Normal(StoredCode(settings[name]))
    ensures name !in settings ==> GetFunction(SettingsPrefix + name, settings) == Throw(Error(NotFoundMessage(name)))
  {
    var ref := SettingsPrefix + name;
    assert ref[..|SettingsPrefix|] == SettingsPrefix;
    assert ref[|SettingsPrefix|..] == name;
  }
}
