/** The filesystem as the verifiers see it: a map from path to node. A file
    carries its size in bytes and the rows that Python's `csv.reader` yields
    for its content (an empty file yields no rows). */
module Workspaces {

  datatype Node = Directory(size: nat) | File(size: nat, rows: seq<seq<string>>)

  type Workspace = map<string, Node>

  /** `os.path.exists(path)` */
  predicate Exists(ws: Workspace, path: string) {
    path in ws
  }
}
