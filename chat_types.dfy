/**
 * The values that `handleSend` reads and writes: messages, conversations,
 * plugins and the keys stored for them.
 */
module ChatTypes {

  datatype Option<+T> = None | Some(value: T)

  /** The three roles a chat message can carry. */
  datatype Role = System | User | Assistant

  datatype Message = Message(role: Role, content: string)

  /**
   * A conversation. `model` is the identifier of the selected model and
   * `temperature` is a floating-point setting that the send flow only
   * carries along; both are opaque here.
   */
  datatype Conversation = Conversation(
    id: string,
    name: string,
    messages: seq<Message>,
    model: string,
    prompt: string,
    temperature: real)

  /** A plugin chosen for one send; only its identity matters to the flow. */
  datatype Plugin = Plugin(id: string)

  /** One named credential of a plugin. */
  datatype KeyValue = KeyValue(key: string, value: string)

  /** The credentials the user stored for one plugin. */
  datatype PluginKey = PluginKey(pluginId: string, requiredKeys: seq<KeyValue>)

  function Min(a: int, b: int): int { if a <= b then a else b }
}
