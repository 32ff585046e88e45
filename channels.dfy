/** Go channels of type `chan struct{}` that carry no values and are used only
    as broadcast signals: every receiver wakes once the channel is closed. */
module Channels {

  class Signal {
    var closed: bool

    /** `make(chan struct{})`: a fresh, open channel. */
    constructor ()
      ensures !closed
    {
      closed := false;
    }

    /** `close(ch)`. Closing a channel that is already closed panics at run
        time, so every caller has to prove the channel is still open. */
    method Close()
      requires !closed
      modifies this
      ensures closed
    {
      closed := true;
    }
  }
}
