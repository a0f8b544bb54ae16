/**
 * File-system paths as strings with '/' as the separator, and the joining rule of
 * Rust's `Path::join` / `PathBuf::push` on Unix: an absolute component replaces
 * the whole path; otherwise a separator is inserted unless the base is empty or
 * already ends with one.
 */
module Paths {

  type Path = string

  predicate IsAbsolute(p: Path) {
    |p| > 0 && p[0] == '/'
  }

  predicate EndsWithSeparator(p: Path) {
    |p| > 0 && p[|p| - 1] == '/'
  }

  function Join(base: Path, component: Path): (r: Path)
    // the joined path always ends with the component
    ensures |component| <= |r| && r[|r| - |component|..] == component
    // an absolute component discards the base
    ensures IsAbsolute(component) ==> r == component
    // a relative component extends the base, with at most one separator in between
    ensures !IsAbsolute(component) ==>
              |base| <= |r| <= |base| + 1 + |component| && r[..|base|] == base
    ensures !IsAbsolute(component) && base != "" && !EndsWithSeparator(base) ==>
              |r| == |base| + 1 + |component| && r[|base|] == '/'
    ensures !IsAbsolute(component) && base != "" && !EndsWithSeparator(base) ==> r == base + "/" + component
    ensures !IsAbsolute(component) && (base == "" || EndsWithSeparator(base)) ==> r == base + component
  {
    if IsAbsolute(component) then component
    else if base == "" || EndsWithSeparator(base) then base + component
    else base + "/" + component
  }
}
