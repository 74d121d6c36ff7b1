/** `load_env.load`: read a `.env` file into the process environment. */
module LoadEnv {
  import opened Types
  import opened Text
  import opened EnvFile

  /**
   * Load the file at `path` of the filesystem `files` into `env`. A missing
   * file raises a bare FileNotFoundError and leaves the environment alone.
   */
  method Load(env: Environment, files: map<string, string>, path: string) returns (r: Outcome<IOError>)
    modifies env
    ensures path !in files ==> r == Fail(FileNotFound("")) && env.vars == old(env.vars)
    ensures path in files ==> r == Pass && env.vars == Loaded(old(env.vars), SplitLines(files[path]))
  {
    if path !in files {
      return Fail(FileNotFound(""));
    }
    var lines := SplitLines(files[path]);
    for i := 0 to |lines|
      invariant env.vars == Loaded(old(env.vars), lines[..i])
    {
      LoadedPrefix(old(env.vars), lines, i);
      var line := Strip(lines[i]);
      if Skipped(line) {
        continue;
      }
      var j := FirstIndex(line, '=');
      assert ParseLine(lines[i]) == Some(Entry(line[..j], line[j + 1..]));
      env.SetDefault(line[..j], line[j + 1..]);
    }
    assert lines[..|lines|] == lines;
    return Pass;
  }
}
