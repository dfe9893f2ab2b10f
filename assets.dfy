/**
 The succeed-or-fail contract shared by every asset loader of the bridge
 (script text, textures, sound buffers, music streams).

 Reading and decoding files is foreign work; a loader is modelled over a
 `store`, a map from each path that opens and decodes successfully to the
 value it decodes to. A path missing from the store is a file that cannot be
 opened or decoded, and the loader throws a runtime error naming the path.
 */
module Assets {

  /** What a loader yields: the decoded value, or the message of the error it throws. */
  datatype Outcome<+T> = Loaded(value: T) | Failed(message: string)

  predicate StartsWith(s: string, prefix: string)
  {
    |prefix| <= |s| && s[..|prefix|] == prefix
  }

  predicate EndsWith(s: string, suffix: string)
  {
    |suffix| <= |s| && s[|s| - |suffix|..] == suffix
  }

  /** Loads `path` as an asset of the given kind ("script", "texture", ...). */
  function LoadFrom<T>(kind: string, store: map<string, T>, path: string): (r: Outcome<T>)
    ensures r.Loaded? <==> path in store
    ensures r.Loaded? ==> r.value == store[path]
    ensures r.Failed? ==> StartsWith(r.message, "Unable to load " + kind + ": ")
    ensures r.Failed? ==> EndsWith(r.message, path)
  {
    if path in store then
      Loaded(store[path])
    else
      var prefix := "Unable to load " + kind + ": ";
      var message := prefix + path;
      assert message[..|prefix|] == prefix;
      assert message[|message| - |path|..] == path;
      Failed(message)
  }
}
