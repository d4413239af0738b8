/** The service-menu request envelope and its builder. */
module Commands {
  import opened Wrappers
  import opened Text

  /** The envelope fields shared by every request: `id`, `type`, `uri`. */
  datatype Command = Command(id: string, cmdType: string, uri: string)

  datatype ServiceMenuCommandPayloadParams = ServiceMenuCommandPayloadParams(id: string, irKey: string)

  datatype ServiceMenuCommandPayload = ServiceMenuCommandPayload(id: string, params: ServiceMenuCommandPayloadParams)

  /** The launch request that opens the factory (service) menu. */
  datatype ServiceMenuCommand = ServiceMenuCommand(command: Command, payload: ServiceMenuCommandPayload)

  const ServiceMenuIdPrefix := "show_service_menu_"

  /**
   * Builds the service-menu request whose id carries the caller's discriminator.
   * Go's `int` is rendered exactly for every value, so its width plays no part.
   */
  function NewServiceMenuCommand(id: int): (c: ServiceMenuCommand)
    ensures c.command.cmdType == "request"
    ensures c.command.uri == "ssap://com.webos.applicationManager/launch"
    ensures c.payload.id == "com.webos.app.factorywin"
    ensures c.payload.params == ServiceMenuCommandPayloadParams("executeFactory", "inStart")
    ensures c.command.id == "show_service_menu_" + Itoa(id)
    ensures |c.command.id| > 18 && c.command.id[..18] == "show_service_menu_"
    ensures ParseDecimal(c.command.id[18..]) == Some(id)
    ensures c.command.id[18] == '-' <==> id < 0
  {
    var cmd := ServiceMenuCommand(
      Command(ServiceMenuIdPrefix + Itoa(id), "request", "ssap://com.webos.applicationManager/launch"),
      ServiceMenuCommandPayload("com.webos.app.factorywin",
        ServiceMenuCommandPayloadParams("executeFactory", "inStart")));
    assert cmd.command.id[18..] == Itoa(id);
    cmd
  }

  /**
   * Two builds differ only in the id, and their ids coincide exactly when the
   * discriminators do; the same discriminator always yields an equal envelope.
   */
  lemma ServiceMenuCommandsDifferOnlyInId(a: int, b: int)
    ensures var ca, cb := NewServiceMenuCommand(a), NewServiceMenuCommand(b);
      ca.(command := ca.command.(id := cb.command.id)) == cb &&
      (ca.command.id == cb.command.id <==> a == b) &&
      (a == b ==> ca == cb)
  {
    var ca, cb := NewServiceMenuCommand(a), NewServiceMenuCommand(b);
    if ca.command.id == cb.command.id {
      assert Some(a) == ParseDecimal(ca.command.id[18..]) == ParseDecimal(cb.command.id[18..]) == Some(b);
    }
  }
}
