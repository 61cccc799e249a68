/** The run's working directory, which every stage reads and writes through. */
module Files {

  /**
   * The files present in the working directory and the text of each, as a
   * text-mode read returns it (line breaks already translated to `\n`).
   * `os.path.exists(p)` is `p in files`.
   */
  class WorkDir {
    var files: map<string, string>

    constructor (initial: map<string, string>)
      ensures files == initial
    {
      files := initial;
    }
  }

  /** Every file other than `path` that was present before is still there with the same text. */
  predicate KeepsOthers(before: map<string, string>, after: map<string, string>, path: string) {
    forall p :: p in before && p != path ==> p in after && after[p] == before[p]
  }
}
