/** The chat part of `StreamScreen`: the input wired to the view model, enabled only while connected. */
module StreamScreen {
  import opened Optional
  import opened Text
  import ChatSocket
  import ChatViewModel
  import ChatInput

  /**
    Pressing send on the screen: the input is enabled by `isConnected`, its
    untrimmed text goes to the view model, which trims it and forwards it.
    A frame reaches the socket exactly when the screen shows "connected", the
    text is not blank and the service holds a socket; the frame carries the
    trimmed text.
   */
  function PressSend(ui: ChatViewModel.ChatState, svc: ChatSocket.Service, text: string): (r: (ChatSocket.Service, string))
    ensures var sends := ui.isConnected && !IsBlank(text) && svc.socket.Some?;
            && (sends ==> |r.0.effects| == |svc.effects| + 1
                          && r.0.effects[|svc.effects|].SendFrame?
                          && r.0.effects[|svc.effects|].frame.content == Trim(text))
            && (!sends ==> r.0.effects == svc.effects)
    ensures ui.isConnected && !IsBlank(text) ==> r.1 == ""
    ensures !(ui.isConnected && !IsBlank(text)) ==> r.0 == svc && r.1 == text
  {
    var click := ChatInput.Press(ui.isConnected, text);
    match click.sent
    case None => (svc, click.text)
    case Some(content) => (ChatViewModel.Send(svc, content), click.text)
  }
}
