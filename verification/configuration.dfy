/**
 * Consumer configuration bags (LogService.FileConfiguration and
 * LogService.ConsoleConfiguration): string-to-string maps updated in place,
 * read through getters that fall back to defaults.
 */
module Configuration {
  import opened JavaLang

  /** The contents of a `HashMap<String, String>`; a key may be mapped to null. */
  type Properties = map<string, JString>

  /** `HashMap.get`: null for a missing key. */
  function Lookup(properties: Properties, name: string): (value: JString)
    ensures name !in properties ==> value == None
  {
    if name in properties then properties[name] else None
  }

  // Property names of a file consumer: the names of FileConfiguration.Name.
  const FileIdentifierKey: string := "FILE_IDENTIFIER"
  const FileBackupCountKey: string := "FILE_BACKUP_COUNT"
  const FileSizeLimitKey: string := "FILE_SIZE_LIMIT"
  const FileAppendKey: string := "FILE_APPEND"

  // Property name of a console consumer: the name of ConsoleConfiguration.Name.
  const LevelKey: string := "LEVEL"

  const DefaultBackupCount: Int32 := 1
  const DefaultFileSizeLimit: Int32 := 10000000

  /**
   * getFileIdentifier: `new URI(value)` throws a NullPointerException when the
   * property is missing. A present value is taken as the identifier.
   */
  function FileIdentifier(properties: Properties): (r: Result<string, Failure>)
    ensures r.Ok? <==> Lookup(properties, FileIdentifierKey).Some?
    ensures r.Ok? ==> Some(r.value) == Lookup(properties, FileIdentifierKey)
    ensures r.Err? ==> r.error == NullPointerException
  {
    match Lookup(properties, FileIdentifierKey)
    case None => Err(NullPointerException)
    case Some(id) => Ok(id)
  }

  /**
   * An integer setting with a default: the default when the value is missing,
   * the parsed value when it parses, and otherwise the default again, except
   * that the error report for the malformed value calls getFileIdentifier,
   * which throws when the identifier is missing.
   */
  function IntSetting(properties: Properties, name: string, default: Int32): (r: Result<Int32, Failure>)
    ensures r.Ok? ==> r.value == default || Some(r.value) == ParseIntOf(Lookup(properties, name))
    ensures Lookup(properties, name).None? ==> r == Ok(default)
    ensures ParseIntOf(Lookup(properties, name)).Some? ==> r == Ok(ParseIntOf(Lookup(properties, name)).value)
    ensures Malformed(Lookup(properties, name)) && FileIdentifier(properties).Ok? ==> r == Ok(default)
    ensures r.Err? <==> Malformed(Lookup(properties, name)) && FileIdentifier(properties).Err?
  {
    match Lookup(properties, name)
    case None => Ok(default)
    case Some(text) =>
      match ParseInt(text)
      case Some(n) => Ok(n)
      case None =>
        match FileIdentifier(properties)
        case Err(e) => Err(e)
        case Ok(_) => Ok(default)
  }

  function ParseIntOf(value: JString): Option<Int32>
  {
    if value.Some? then ParseInt(value.value) else None
  }

  /** A value that is present but is not an `int` for `new Integer(String)`. */
  predicate Malformed(value: JString)
  {
    value.Some? && ParseInt(value.value).None?
  }

  /** getFileBackupCount. */
  function FileBackupCount(properties: Properties): (r: Result<Int32, Failure>)
    ensures Lookup(properties, FileBackupCountKey).None? ==> r == Ok(DefaultBackupCount)
    ensures ParseIntOf(Lookup(properties, FileBackupCountKey)).Some? ==> r == Ok(ParseIntOf(Lookup(properties, FileBackupCountKey)).value)
    ensures Malformed(Lookup(properties, FileBackupCountKey)) && FileIdentifier(properties).Ok? ==> r == Ok(DefaultBackupCount)
    ensures r.Err? <==> Malformed(Lookup(properties, FileBackupCountKey)) && FileIdentifier(properties).Err?
  {
    IntSetting(properties, FileBackupCountKey, DefaultBackupCount)
  }

  /** getFileSizeLimit. */
  function FileSizeLimit(properties: Properties): (r: Result<Int32, Failure>)
    ensures Lookup(properties, FileSizeLimitKey).None? ==> r == Ok(DefaultFileSizeLimit)
    ensures ParseIntOf(Lookup(properties, FileSizeLimitKey)).Some? ==> r == Ok(ParseIntOf(Lookup(properties, FileSizeLimitKey)).value)
    ensures Malformed(Lookup(properties, FileSizeLimitKey)) && FileIdentifier(properties).Ok? ==> r == Ok(DefaultFileSizeLimit)
    ensures r.Err? <==> Malformed(Lookup(properties, FileSizeLimitKey)) && FileIdentifier(properties).Err?
  {
    IntSetting(properties, FileSizeLimitKey, DefaultFileSizeLimit)
  }

  /** getFileAppendSetting: true exactly for a case-insensitive "true". */
  function FileAppendSetting(properties: Properties): (append: bool)
    ensures append <==> Lookup(properties, FileAppendKey).Some? && EqualsIgnoreCase(Lookup(properties, FileAppendKey).value, "true")
  {
    var value := Lookup(properties, FileAppendKey);
    if value.None? || EqualsIgnoreCase(value.value, "false") then false
    else if EqualsIgnoreCase(value.value, "true") then true
    else false
  }

  /** Once the identifier is set, the integer getters always return a value. */
  lemma SettingsReadableWithIdentifier(properties: Properties)
    requires FileIdentifier(properties).Ok?
    ensures FileBackupCount(properties).Ok? && FileSizeLimit(properties).Ok?
  {
  }

  /** The bag the four-argument FileConfiguration constructor fills. */
  function FileSettings(fileId: string, backupCount: Int32, fileSizeLimit: Int32, append: bool): Properties
  {
    map[FileIdentifierKey := Some(fileId)]
      [FileAppendKey := Some(BoolToString(append))]
      [FileBackupCountKey := Some(IntToString(backupCount))]
      [FileSizeLimitKey := Some(IntToString(fileSizeLimit))]
  }

  /** The getters give back what the four-argument constructor was given. */
  lemma FileSettingsRoundTrip(fileId: string, backupCount: Int32, fileSizeLimit: Int32, append: bool)
    ensures FileIdentifier(FileSettings(fileId, backupCount, fileSizeLimit, append)) == Ok(fileId)
    ensures FileBackupCount(FileSettings(fileId, backupCount, fileSizeLimit, append)) == Ok(backupCount)
    ensures FileSizeLimit(FileSettings(fileId, backupCount, fileSizeLimit, append)) == Ok(fileSizeLimit)
    ensures FileAppendSetting(FileSettings(fileId, backupCount, fileSizeLimit, append)) == append
  {
    ParseIntToString(backupCount);
    ParseIntToString(fileSizeLimit);
    if !append {
      assert !EqualsIgnoreCase("false", "true") by {
        assert AsciiLower("false"[0]) != AsciiLower("true"[0]);
      }
    }
  }

  /** A file consumer's settings (LogService.FileConfiguration). */
  class FileConfiguration {
    var properties: Properties

    /** FileConfiguration(ErrorManager): an empty bag. */
    constructor Empty()
      ensures properties == map[]
    {
      properties := map[];
    }

    /** FileConfiguration(URI): only the file identifier. */
    constructor (fileId: string)
      ensures properties == map[FileIdentifierKey := Some(fileId)]
    {
      properties := map[FileIdentifierKey := Some(fileId)];
    }

    /** FileConfiguration(URI, Integer, Integer, Boolean). */
    constructor WithSettings(fileId: string, backupCount: Int32, fileSizeLimit: Int32, append: bool)
      ensures properties == FileSettings(fileId, backupCount, fileSizeLimit, append)
      ensures FileBackupCount(properties) == Ok(backupCount)
      ensures FileSizeLimit(properties) == Ok(fileSizeLimit)
      ensures FileAppendSetting(properties) == append
    {
      properties := map[FileIdentifierKey := Some(fileId)];
      new;
      SetProperty(FileAppendKey, Some(BoolToString(append)));
      SetProperty(FileBackupCountKey, Some(IntToString(backupCount)));
      SetProperty(FileSizeLimitKey, Some(IntToString(fileSizeLimit)));
      FileSettingsRoundTrip(fileId, backupCount, fileSizeLimit, append);
    }

    function GetProperty(name: string): JString
      reads this
    {
      Lookup(properties, name)
    }

    method SetProperty(name: string, value: JString)
      modifies this
      ensures properties == old(properties)[name := value]
      ensures GetProperty(name) == value
      ensures forall other | other != name :: GetProperty(other) == old(GetProperty(other))
    {
      properties := properties[name := value];
    }
  }

  /** A console consumer's settings (LogService.ConsoleConfiguration). */
  class ConsoleConfiguration {
    var properties: Properties

    /** ConsoleConfiguration(Level): the level's name under LEVEL. */
    constructor (levelName: string)
      ensures properties == map[LevelKey := Some(levelName)]
      ensures GetLevel() == Some(levelName)
    {
      properties := map[LevelKey := Some(levelName)];
    }

    function GetLevel(): JString
      reads this
    {
      Lookup(properties, LevelKey)
    }

    function GetProperty(name: string): JString
      reads this
    {
      Lookup(properties, name)
    }

    method SetProperty(name: string, value: JString)
      modifies this
      ensures properties == old(properties)[name := value]
      ensures GetProperty(name) == value
      ensures forall other | other != name :: GetProperty(other) == old(GetProperty(other))
    {
      properties := properties[name := value];
    }
  }
}
