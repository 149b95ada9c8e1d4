/**
 * Parsing of the update_credentials form: the bound optional fields, plus the
 * profile fields decoded from every submitted value (internal/api/v1/accounts.go).
 */
module UpdateForm {
  import opened Wrappers
  import opened HttpUtils
  import opened Misskey

  /** The keys of an optional value map; none when the map is unavailable. */
  function KeysOf(m: Option<Values>): set<string> {
    if m.Some? then m.value.Keys else {}
  }

  /**
   * The values the profile-field decoder sees: the query values, then the form
   * values, then the multipart values, a later source replacing a key's whole
   * value list. An unavailable form or multipart body contributes nothing.
   */
  function MergedValues(query: Values, form: Option<Values>, multipart: Option<Values>): Values {
    query + form.GetOr(map[]) + multipart.GetOr(map[])
  }

  /** Every submitted key is kept, with the value list of the last source that has it. */
  lemma MergedValuesLastWriterWins(query: Values, form: Option<Values>, multipart: Option<Values>)
    ensures MergedValues(query, form, multipart).Keys == query.Keys + KeysOf(form) + KeysOf(multipart)
    ensures forall k :: k in MergedValues(query, form, multipart) ==>
      MergedValues(query, form, multipart)[k] ==
        if k in KeysOf(multipart) then multipart.value[k]
        else if k in KeysOf(form) then form.value[k]
        else query[k]
  {
  }

  /** Copies every entry of `src` into `values`, replacing what was there (one Go range loop). */
  method Overwrite(values: Values, src: Values) returns (result: Values)
    ensures result.Keys == values.Keys + src.Keys
    ensures forall k :: k in src ==> result[k] == src[k]
    ensures forall k :: k in values && k !in src ==> result[k] == values[k]
  {
    result := values;
    var pending := src.Keys;
    while pending != {}
      invariant pending <= src.Keys
      invariant result.Keys == values.Keys + (src.Keys - pending)
      invariant forall k :: k in src && k !in pending ==> result[k] == src[k]
      invariant forall k :: k in values && (k !in src || k in pending) ==> result[k] == values[k]
      decreases pending
    {
      var k :| k in pending;
      result := result[k := src[k]];
      pending := pending - {k};
    }
  }

  /** Builds the merged value map: query values, overwritten by form values, overwritten by multipart values. */
  method MergeValues(query: Values, form: Option<Values>, multipart: Option<Values>) returns (values: Values)
    ensures values == MergedValues(query, form, multipart)
  {
    values := map[];
    values := Overwrite(values, query);
    if form.Some? {
      values := Overwrite(values, form.value);
    }
    if multipart.Some? {
      values := Overwrite(values, multipart.value);
    }
  }

  /**
   * parseAccountsUpdateCredentialsForm: a binding failure is returned as it is;
   * otherwise the bound form is kept and the profile fields decoded from the
   * merged values are appended, in the decoder's order, to those already bound.
   */
  method ParseUpdateCredentialsForm(
    bound: Result<CredentialsUpdate, string>,
    query: Values, form: Option<Values>, multipart: Option<Values>,
    fieldsAttributes: Values -> seq<AccountField>)
    returns (r: Result<CredentialsUpdate, string>)
    ensures bound.Err? ==> r == Err(bound.error)
    ensures bound.Ok? ==> r.Ok?
    ensures bound.Ok? ==>
      r.value == bound.value.(accountFields := bound.value.accountFields
                                             + fieldsAttributes(MergedValues(query, form, multipart)))
  {
    if bound.Err? {
      return Err(bound.error);
    }
    var values := MergeValues(query, form, multipart);
    var decoded := fieldsAttributes(values);
    var fields := bound.value.accountFields;
    for i := 0 to |decoded|
      invariant fields == bound.value.accountFields + decoded[..i]
    {
      fields := fields + [decoded[i]];
    }
    assert decoded[..|decoded|] == decoded;
    return Ok(bound.value.(accountFields := fields));
  }
}
