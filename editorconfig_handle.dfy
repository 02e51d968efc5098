/** The part of the EditorConfig C library's handle API that LoadConfig uses.
    The library itself (walking up the directories for `.editorconfig` files,
    glob matching, merging sections) is not part of this model: what
    `editorconfig_parse` would compute for a file name is given as a
    `ParseResult`, an exit status and the ordered name/value list it leaves in
    the handle.
 */
module EditorConfigLib {

  /** `EDITORCONFIG_PARSE_NOT_FULL_PATH` of the library's public header: the
      file name given was not an absolute path. */
  const EDITORCONFIG_PARSE_NOT_FULL_PATH: int := -2

  /** What `editorconfig_parse` reports for one file name. */
  datatype ParseResult = ParseResult(status: int, nameValues: seq<(string, string)>)

  /** An `editorconfig_handle`: the name/value list filled in by a parse, and
      how many times `editorconfig_handle_destroy` has released it. */
  class Handle {
    var nameValues: seq<(string, string)>
    var destroyCount: nat

    /** `editorconfig_handle_init`: a fresh, empty handle. */
    constructor ()
      ensures nameValues == [] && destroyCount == 0
    {
      nameValues := [];
      destroyCount := 0;
    }

    /** `editorconfig_parse`: fills the handle and returns the library's status. */
    method Parse(result: ParseResult) returns (status: int)
      requires destroyCount == 0
      modifies this
      ensures status == result.status
      ensures nameValues == result.nameValues && destroyCount == 0
    {
      nameValues := result.nameValues;
      status := result.status;
    }

    /** `editorconfig_handle_get_name_value_count`; only a live handle may be queried. */
    function NameValueCount(): nat
      requires destroyCount == 0
      reads this
    {
      |nameValues|
    }

    /** `editorconfig_handle_get_name_value`: the `i`-th pair, in the library's order. */
    method GetNameValue(i: nat) returns (name: string, value: string)
      requires destroyCount == 0 && i < |nameValues|
      ensures (name, value) == nameValues[i]
    {
      name, value := nameValues[i].0, nameValues[i].1;
    }

    /** `editorconfig_handle_destroy`: a handle may be released only once. */
    method Destroy()
      requires destroyCount == 0
      modifies this
      ensures destroyCount == 1 && nameValues == old(nameValues)
    {
      destroyCount := 1;
    }
  }
}
