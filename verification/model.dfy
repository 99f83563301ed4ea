/** The adapter's own voice record, returned by the get_voices tool. */
module Model {
  import opened Common
  import opened Sdk

  datatype McpVoice = McpVoice(
    voiceId: string,
    name: string,
    gender: string,
    model: string,
    description: Option<string>)

  /** The fields get_voices may be asked to sort by. */
  datatype SortField = Name | Timestamp

  const NoTimestampMessage := "'McpVoice' object has no attribute 'timestamp'"

  /** The McpVoice built from an SDK voice: the five shared fields, copied. */
  function ToMcpVoice(v: Voice): McpVoice
  {
    McpVoice(v.voiceId, v.name, v.gender, v.model, v.description)
  }

  /** `getattr(v, field)`: an McpVoice has a name but no timestamp. */
  function SortKey(v: McpVoice, field: SortField): (r: Result<string>)
    ensures r.Ok? <==> field == Name
    ensures r.Ok? ==> r.value == v.name
    ensures r.Err? ==> r.error == AttributeError(NoTimestampMessage)
  {
    match field
    case Name => Ok(v.name)
    case Timestamp => Err(AttributeError(NoTimestampMessage))
  }
}
