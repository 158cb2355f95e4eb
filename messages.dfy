/**
 * The JSON messages that travel over extension ports and through
 * `chrome.runtime.sendMessage`. The background page only ever looks at a few
 * properties; each is a field here, with JavaScript truthiness already applied
 * to the flags. Everything else in a message is `body`, which the relay
 * forwards without looking at it.
 */
module Messages {
  import opened Wrappers

  datatype Message = Message(
    setReactComponentPoolKey: bool,  // request.setReactComponentPoolKey
    key: string,                     // request.key
    reactComponent: bool,            // request.reactComponent
    displayName: string,             // request.element.displayName
    queryReactComponents: bool,      // request.queryReactComponents
    hasDetectedReact: bool,          // request.hasDetectedReact
    reactBuildType: string,          // request.reactBuildType
    payloadType: Option<string>,     // request.payload?.type
    body: string)                    // the remaining properties
}
