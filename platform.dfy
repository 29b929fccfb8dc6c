/**
 * Library routines the bot calls but whose code lies outside the modelled
 * files: regular-expression matching and replacement, the word splitter,
 * title casing, `string.Format` and the quoting helper used in log lines.
 * Each is an uninterpreted function; nothing is assumed about it.
 */
module Platform {
  datatype Utils = Utils(
    /** `GetWordsInSentence` */
    wordsOf: string -> seq<string>,
    /** `FastRegex.IsMatch(input, pattern, RegexOptions.IgnoreCase)` */
    isMatch: (string, string) -> bool,
    /** `Regex.Replace(text, @"\b" + name + @"\b", "", RegexOptions.IgnoreCase)` */
    stripWord: (string, string) -> string,
    /** the chain of `FastRegex.Replace` calls inside `RemoveIPhoneStuff` */
    iPhoneRegexes: string -> string,
    /** `ToTitleCase` */
    titleCase: string -> string,
    /** `UppercaseFirst` */
    upperFirst: string -> string,
    /** `string.Format(text, args)` */
    format: (string, seq<string>) -> string,
    /** `string.Format(text, args)` with this many arguments does not throw `FormatException` */
    formatAccepts: (string, nat) -> bool,
    /** `repr` */
    repr: string -> string)
}
