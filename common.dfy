/**
 * The common service and repository: uniqueness checks with their blank
 * shortcut, language lookups, and the fixed lists of accepted values.
 */
module Common {
  import opened Wrappers
  import opened Text
  import opened Entity

  /** A Go `interface{}` argument as it reaches SQL: a string, an int64, or another integer type. */
  datatype Dynamic = Str(s: string) | Int64(n: int) | OtherInt(n: int)

  /**
   * The table-level uniqueness check (`tools.IsUnique`) for the current
   * database: `check(column, value, table)` holds when no row of `table` has
   * `value` in `column`.
   */
  type TableCheck = (string, Dynamic, string) -> bool

  /** `CommonRepository.IsUnique`: a blank string is unique without asking the table. */
  function RepositoryIsUnique(column: string, value: Dynamic, table: string, check: TableCheck): (unique: bool)
    ensures value.Str? && IsBlank(value.s) ==> unique
    ensures !(value.Str? && IsBlank(value.s)) ==> unique == check(column, value, table)
  {
    if value.Str? && IsBlank(value.s) then true else check(column, value, table)
  }

  /** `Service.IsUnique` hands its three arguments to the repository unchanged. */
  function IsUnique(column: string, value: Dynamic, table: string, check: TableCheck): (unique: bool)
    ensures value.Str? && IsBlank(value.s) ==> unique
    ensures value.Int64? || value.OtherInt? ==> unique == check(column, value, table)
    ensures value.Str? && !IsBlank(value.s) ==> unique == check(column, value, table)
  {
    RepositoryIsUnique(column, value, table, check)
  }

  /** The answer depends on the table only for non-blank values. */
  lemma BlankNeedsNoTable(column: string, value: string, table: string, check: TableCheck, other: TableCheck)
    requires IsBlank(value)
    ensures IsUnique(column, Str(value), table, check) == IsUnique(column, Str(value), table, other)
  {
  }

  const NoLanguageMessage := "no language found"

  /**
   * `FindLanguage`: `lookup` is the language repository's `Find` (by code or
   * name). A blank identifier is refused before any lookup.
   */
  function FindLanguage(identifier: string, lookup: string -> Option<Language>): (r: Result<Language>)
    ensures IsBlank(identifier) ==> r == Failure(Error(NoLanguageMessage))
    ensures !IsBlank(identifier) && lookup(identifier).Some? ==> r == Success(lookup(identifier).value)
    ensures !IsBlank(identifier) && lookup(identifier).None? ==> r == Failure(Error(NoLanguageMessage))
  {
    if IsBlank(identifier) then Failure(Error(NoLanguageMessage))
    else match lookup(identifier)
      case Some(language) => Success(language)
      case None => Failure(Error(NoLanguageMessage))
  }

  /**
   * `FindLanguageEntry`: the translation of `identifier` in language `code`,
   * or the identifier itself when it is blank or has no translation. The
   * lookup (`FindWCode`) receives the identifier stripped of emoji.
   */
  function FindLanguageEntry(
    identifier: string, code: string,
    removeEmoji: string -> string, lookup: (string, string) -> Option<LanguageEntry>): (text: string)
    ensures IsBlank(identifier) ==> text == identifier
    ensures !IsBlank(identifier) && lookup(removeEmoji(identifier), code).None? ==> text == identifier
    ensures !IsBlank(identifier) && lookup(removeEmoji(identifier), code).Some? ==>
              text == lookup(removeEmoji(identifier), code).value.value
  {
    if IsBlank(identifier) then identifier
    else match lookup(removeEmoji(identifier), code)
      case None => identifier
      case Some(entry) => entry.value
  }

  /**
   * The finder shape of the services: a blank key is refused with `message`
   * before the repository is asked, and a failed lookup is reported with the
   * same message.
   */
  function GuardedFind<T>(key: string, lookup: string -> Option<T>, message: string): (r: Result<T>)
    ensures r.Success? <==> !IsBlank(key) && lookup(key).Some?
    ensures r.Success? ==> r.value == lookup(key).value
    ensures r.Failure? ==> r.error == Error(message)
  {
    if IsBlank(key) then Failure(Error(message))
    else match lookup(key)
      case Some(found) => Success(found)
      case None => Failure(Error(message))
  }

  /** The list-finder shape: nothing for a blank key, the repository's answer otherwise. */
  function GuardedFindAll<T>(key: string, lookup: string -> seq<T>): (r: seq<T>)
    ensures IsBlank(key) ==> r == []
    ensures !IsBlank(key) ==> r == lookup(key)
  {
    if IsBlank(key) then [] else lookup(key)
  }

  /** Neither finder consults the repository for a blank key. */
  lemma BlankSkipsLookup<T>(key: string, message: string,
                            lookup: string -> Option<T>, other: string -> Option<T>,
                            lookupAll: string -> seq<T>, otherAll: string -> seq<T>)
    requires IsBlank(key)
    ensures GuardedFind(key, lookup, message) == GuardedFind(key, other, message) == Failure(Error(message))
    ensures GuardedFindAll(key, lookupAll) == GuardedFindAll(key, otherAll) == []
  {
  }

  const ValidChatTypes: seq<string> := ["CHANNEL", "GROUP"]
  const ValidCurrencyTypes: seq<string> := ["ETB"]
  const ValidLinkedAccountProviders: seq<string> := ["CBE", "Telebirr"]

  /** What the three lists accept once case is ignored. */
  lemma ValidListsAccept(candidate: string)
    ensures InFold(ValidChatTypes, candidate) <==> ToUpper(candidate) == "CHANNEL" || ToUpper(candidate) == "GROUP"
    ensures InFold(ValidCurrencyTypes, candidate) <==> ToUpper(candidate) == "ETB"
    ensures InFold(ValidLinkedAccountProviders, candidate) <==> ToUpper(candidate) == "CBE" || ToUpper(candidate) == "TELEBIRR"
  {
    UpperFixes("CHANNEL");
    UpperFixes("GROUP");
    UpperFixes("ETB");
    UpperFixes("CBE");
    var t := "Telebirr";
    assert ToUpper(t) == "TELEBIRR" by {
      assert ToUpper(t)[1] == 'E' && ToUpper(t)[2] == 'L' && ToUpper(t)[3] == 'E';
      assert ToUpper(t)[4] == 'B' && ToUpper(t)[5] == 'I' && ToUpper(t)[6] == 'R' && ToUpper(t)[7] == 'R';
    }
    InFoldPair(ValidChatTypes, candidate);
    InFoldPair(ValidLinkedAccountProviders, candidate);
    InFoldSingle(ValidCurrencyTypes, candidate);
  }

  lemma InFoldPair(allowed: seq<string>, candidate: string)
    requires |allowed| == 2
    ensures InFold(allowed, candidate) <==> ToUpper(allowed[0]) == ToUpper(candidate) || ToUpper(allowed[1]) == ToUpper(candidate)
  {
  }

  lemma InFoldSingle(allowed: seq<string>, candidate: string)
    requires |allowed| == 1
    ensures InFold(allowed, candidate) <==> ToUpper(allowed[0]) == ToUpper(candidate)
  {
  }

  /** Upper-casing leaves a string without lower-case letters as it is. */
  lemma UpperFixes(s: string)
    requires forall i | 0 <= i < |s| :: !('a' <= s[i] <= 'z')
    ensures ToUpper(s) == s
  {
  }
}
