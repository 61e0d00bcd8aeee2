// Paths as lists of components.

module Paths {
  type Path = seq<string>

  /** filepath.Base of an absolute path. */
  function Base(p: Path): string {
    if p == [] then "/" else p[|p| - 1]
  }
}
