/**
 * The command alphabet shared by the controller and the ESP32 actuator.
 * On the wire each command is a path token of an HTTP GET (`{ESP32_IP}/{token}`);
 * `Exit` is the sentinel that ends the delivery worker and is never sent.
 */
module Commands {

  datatype Command = Forward | Left | Right | Stop | Exit

  /** The string the controller puts on the queue for each command. */
  function Token(c: Command): string
  {
    match c
    case Forward => "forward"
    case Left => "left"
    case Right => "right"
    case Stop => "stop"
    case Exit => "exit"
  }

  /** Comparing commands is the same as comparing their tokens, as the source does with `!=`. */
  lemma TokenInjective(a: Command, b: Command)
    ensures Token(a) == Token(b) <==> a == b
  {
  }
}
