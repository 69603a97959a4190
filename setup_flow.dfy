/** The contract pick of the `async_step_user` setup step that sits, as a
    stray fragment, inside the coordinator's source file: after the contracts
    request, an empty answer is an error, otherwise the first contract's id
    is read from one of three keys, and a ValueError becomes the form's
    error message. */
module SetupFragment {
  import opened JsonValue
  import opened Http

  /** The keys tried, in order, for the picked contract's id. */
  const AccountUidKey := "contract_account_uid"
  const ContractIdKey := "contract_id"
  const IdKey := "id"

  /** The message of the ValueError raised for an empty contracts answer. */
  const NoContract := "no_contract"

  /** `contracts[0]` followed by `first.get(...) or first.get(...) or
      first.get(...)` on the decoded contracts answer, after the emptiness
      guard. */
  function PickContract(contracts: Json): (r: Call<Json>)
    ensures r == Raised(ValueError(NoContract)) <==> !Truthy(contracts)
    ensures r.Returned? <==> contracts.JList? && |contracts.items| > 0 && contracts.items[0].JObj?
    ensures r.Returned? ==>
      var first := contracts.items[0].fields;
      && (Truthy(Get(first, AccountUidKey)) ==> r.value == first[AccountUidKey])
      && (!Truthy(Get(first, AccountUidKey)) && Truthy(Get(first, ContractIdKey)) ==>
            r.value == first[ContractIdKey])
      && (!Truthy(Get(first, AccountUidKey)) && !Truthy(Get(first, ContractIdKey)) ==>
            r.value == Get(first, IdKey))
    ensures r.Returned? ==>
      var first := contracts.items[0].fields;
      (Truthy(r.value) <==>
         Truthy(Get(first, AccountUidKey)) || Truthy(Get(first, ContractIdKey)) || Truthy(Get(first, IdKey)))
    ensures r.Raised? && Truthy(contracts) ==>
      (contracts.JList? ==> r.error == AttributeError)        // `.get` on a non-dict entry
      && (contracts.JObj? ==> r.error == KeyError)            // `{...}[0]`: JSON keys are strings
      && (contracts.JStr? ==> r.error == AttributeError)      // `"..."[0].get`
      && (contracts.JInt? || contracts.JReal? || contracts.JBool? ==> r.error == TypeError)
  {
    if !Truthy(contracts) then Raised(ValueError(NoContract))
    else match contracts
      case JList(items) =>
        (match items[0]
         case JObj(first) =>
           Returned(Or(Or(Get(first, AccountUidKey), Get(first, ContractIdKey)), Get(first, IdKey)))
         case _ => Raised(AttributeError))
      case JObj(_) => Raised(KeyError)
      case JStr(_) => Raised(AttributeError)
      case _ => Raised(TypeError)
  }

  /** The `errors` the setup form is shown with after the `try` block:
      a ValueError's message, "cannot_connect" for an aiohttp.ClientError,
      and no errors at all when the step succeeded. json.JSONDecodeError,
      raised by an undecodable login or contracts body, is a ValueError
      subclass, so its message (`decodeMessage`, which depends on the body)
      is shown as well. `None` when the exception is not caught and escapes
      the step. */
  function FormErrors(r: Call<Json>, decodeMessage: string): (errors: Option<map<string, string>>)
    ensures r.Returned? ==> errors == Some(map[])
    ensures r.Raised? && r.error.ValueError? ==> errors == Some(map["base" := r.error.message])
    ensures r.Raised? && r.error == JsonDecodeError ==> errors == Some(map["base" := decodeMessage])
    ensures r.Raised? && r.error == ClientError ==> errors == Some(map["base" := "cannot_connect"])
    ensures errors.None? <==>
      r.Raised? && !r.error.ValueError? && r.error != JsonDecodeError && r.error != ClientError
  {
    match r
    case Returned(_) => Some(map[])
    case Raised(ValueError(message)) => Some(map["base" := message])
    case Raised(JsonDecodeError) => Some(map["base" := decodeMessage])
    case Raised(ClientError) => Some(map["base" := "cannot_connect"])
    case Raised(_) => None
  }

  /** The form reports "no_contract" exactly when the contracts answer is
      empty (or otherwise falsy); any other outcome of the pick either
      yields an id or lets an exception escape the step. */
  lemma {:induction false} NoContractShownIffEmpty(contracts: Json, decodeMessage: string)
    ensures FormErrors(PickContract(contracts), decodeMessage) == Some(map["base" := NoContract])
        <==> !Truthy(contracts)
    ensures Truthy(contracts) ==>
      PickContract(contracts).Returned? || FormErrors(PickContract(contracts), decodeMessage).None?
  {
    var r := PickContract(contracts);
    if Truthy(contracts) {
      assert r != Raised(ValueError(NoContract));
      if r.Raised? {
        assert r.error in {AttributeError, KeyError, TypeError};
      } else {
        assert "base" !in FormErrors(r, decodeMessage).value;
      }
    } else {
      assert r == Raised(ValueError(NoContract));
    }
  }
}
