/**
 * Token persistence of out_cloudwatch_logs.go: where the sequence token of a
 * stream is kept on disk (`stateFileFor`), how it is read back
 * (`readStateToken`) and what writing it does to the file system
 * (`storeStateToken`, whose in-place update is `OutputPlugin.StoreStateToken`).
 *
 * The file system is a map from path to contents; a path that is not a key is
 * a file that cannot be stat'ed or read.
 */
module StateToken {
  import opened GoText

  type FileSystem = map<string, string>

  /**
   * The state file of a stream: the configured state path, an underscore, and
   * the stream name with every "/" turned into "-".
   */
  function StateFileFor(stateFile: string, logStreamName: string): string {
    stateFile + "_" + ReplaceChar(logStreamName, '/', '-')
  }

  /**
   * The state file name is the state path, "_", then the stream name character
   * by character with "-" in place of every "/".
   */
  lemma StateFileForShape(stateFile: string, logStreamName: string)
    ensures var path := StateFileFor(stateFile, logStreamName);
      && |path| == |stateFile| + 1 + |logStreamName|
      && path[..|stateFile|] == stateFile && path[|stateFile|] == '_'
      && forall i :: 0 <= i < |logStreamName| ==>
           path[|stateFile| + 1 + i] == if logStreamName[i] == '/' then '-' else logStreamName[i]
  {
    var path := StateFileFor(stateFile, logStreamName);
    assert path[|stateFile| + 1..] == ReplaceChar(logStreamName, '/', '-');
  }

  /** No state file name has a "/" after the state path's underscore. */
  lemma StateFileNameHasNoSlash(stateFile: string, logStreamName: string)
    ensures forall i :: |stateFile| < i < |StateFileFor(stateFile, logStreamName)| ==>
      StateFileFor(stateFile, logStreamName)[i] != '/'
  {
    var path := StateFileFor(stateFile, logStreamName);
    StateFileForShape(stateFile, logStreamName);
    forall i | |stateFile| < i < |path|
      ensures path[i] != '/'
    {
      assert path[|stateFile| + 1 + (i - |stateFile| - 1)] == path[i];
    }
  }

  /**
   * Under one state path two streams share a state file exactly when they are
   * equal once every "/" is read as "-" ("a/b" and "a-b" collide).
   */
  lemma {:induction false} StateFileForCollision(stateFile: string, stream1: string, stream2: string)
    ensures StateFileFor(stateFile, stream1) == StateFileFor(stateFile, stream2)
        <==> ReplaceChar(stream1, '/', '-') == ReplaceChar(stream2, '/', '-')
  {
    var p1, p2 := StateFileFor(stateFile, stream1), StateFileFor(stateFile, stream2);
    if p1 == p2 {
      assert p1[|stateFile| + 1..] == ReplaceChar(stream1, '/', '-');
      assert p2[|stateFile| + 1..] == ReplaceChar(stream2, '/', '-');
    }
  }


  /**
   * `readStateToken`: the empty token when the state file is missing or
   * unreadable, otherwise its contents without leading and trailing "\r" and
   * "\n".
   */
  function ReadStateToken(files: FileSystem, stateFile: string, logStreamName: string): (token: string)
    ensures StateFileFor(stateFile, logStreamName) !in files ==> token == ""
    ensures !HasLineBreakEdge(token)
    ensures StateFileFor(stateFile, logStreamName) in files && !HasLineBreakEdge(files[StateFileFor(stateFile, logStreamName)])
      ==> token == files[StateFileFor(stateFile, logStreamName)]
  {
    var filename := StateFileFor(stateFile, logStreamName);
    if filename !in files then ""
    else Trim(files[filename])
  }

  /** The file system after `storeStateToken` overwrote the stream's state file with `token`. */
  function AfterStore(files: FileSystem, stateFile: string, logStreamName: string, token: string): FileSystem {
    files[StateFileFor(stateFile, logStreamName) := token]
  }

  /**
   * Storing a token and reading it back under the same state path and stream
   * gives the token, provided it neither starts nor ends with a line break.
   */
  lemma StoreThenRead(files: FileSystem, stateFile: string, logStreamName: string, token: string)
    requires !HasLineBreakEdge(token)
    ensures ReadStateToken(AfterStore(files, stateFile, logStreamName, token), stateFile, logStreamName) == token
  {
  }

  /** Any stored token reads back with its surrounding line breaks removed. */
  lemma StoreThenReadTrims(files: FileSystem, stateFile: string, logStreamName: string, token: string)
    ensures ReadStateToken(AfterStore(files, stateFile, logStreamName, token), stateFile, logStreamName) == Trim(token)
  {
  }

  /** Storing touches the stream's state file and no other. */
  lemma StoreChangesOneFile(files: FileSystem, stateFile: string, logStreamName: string, token: string)
    ensures var after := AfterStore(files, stateFile, logStreamName, token);
      && after.Keys == files.Keys + {StateFileFor(stateFile, logStreamName)}
      && after[StateFileFor(stateFile, logStreamName)] == token
      && forall path :: path in files && path != StateFileFor(stateFile, logStreamName) ==> after[path] == files[path]
  {
  }

  /** A second store under the same key overwrites the first. */
  lemma StoreOverwrites(files: FileSystem, stateFile: string, logStreamName: string, token1: string, token2: string)
    ensures AfterStore(AfterStore(files, stateFile, logStreamName, token1), stateFile, logStreamName, token2)
         == AfterStore(files, stateFile, logStreamName, token2)
  {
  }
}
