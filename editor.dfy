/**
 * The editor as the commands use it: notifications, the file-name check, and a
 * text document that is changed by replacing a range of its text.
 */
module Editor {

  datatype Notice = Info(text: string) | Warning(text: string) | Error(text: string)

  const InstructionFile := "instruction.txt"

  /** `s.endsWith(suffix)` */
  predicate EndsWith(s: string, suffix: string) {
    |suffix| <= |s| && s[|s| - |suffix|..] == suffix
  }

  class Document {
    const fileName: string
    var text: string

    constructor (fileName: string, text: string)
      ensures this.fileName == fileName && this.text == text
    {
      this.fileName := fileName;
      this.text := text;
    }

    /** One edit replacing the characters `start..end` by `replacement`. */
    method Replace(start: nat, end: nat, replacement: string)
      requires start <= end <= |text|
      modifies this
      ensures text == old(text)[..start] + replacement + old(text)[end..]
    {
      text := text[..start] + replacement + text[end..];
    }
  }
}
