/** Types shared by every part of the model. */
module Basics {
  datatype Option<+T> = None | Some(value: T)

  datatype Result<+T, +E> = Ok(value: T) | Err(error: E)

  /** Opaque identifiers: projects, sessions, operations, checkpoints, token digests. */
  type Id = string

  /** A project-relative POSIX path as its list of components. */
  type Path = seq<string>

  /** Git commits are numbered so that a parent always has a smaller number than its child. */
  type CommitId = nat

  /** The files of a commit, of the index or of the worktree. */
  type Tree = map<Path, string>

  function Lookup<K, V>(m: map<K, V>, k: K): Option<V> {
    if k in m then Some(m[k]) else None
  }

  /** Lower case of ASCII letters. */
  function Lower(s: string): string {
    seq(|s|, k requires 0 <= k < |s| =>
      if 'A' <= s[k] <= 'Z' then (s[k] as int + 32) as char else s[k])
  }
}
