/** The parts of an HTTP request the API routes look at. */
module Http {
  import opened Wrappers

  datatype Method = Get | Post | OtherMethod(name: string)

  /** JavaScript truthiness of an optional string field: present and non-empty. */
  predicate Truthy(v: Option<string>) {
    v.Some? && v.value != ""
  }
}
