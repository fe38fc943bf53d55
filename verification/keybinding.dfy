/**
 * The keyboard state of the browser client (js/index/keybinding.mjs): the
 * set of key codes held down and the key bound to each named event.
 */
module KeyBindings {
  class KeyBinding {
    var pressedKeys: set<string>
    var keyBinds: map<string, string>

    /** No key held and no binding; the listeners are the KeyDown and KeyUp methods. */
    constructor ()
      ensures pressedKeys == {} && keyBinds == map[]
    {
      pressedKeys := {};
      keyBinds := map[];
    }

    /** The `keydown` listener: the key's code is held. */
    method KeyDown(code: string)
      modifies this
      ensures pressedKeys == old(pressedKeys) + {code} && keyBinds == old(keyBinds)
    {
      pressedKeys := pressedKeys + {code};
    }

    /** The `keyup` listener: the key's code is no longer held. */
    method KeyUp(code: string)
      modifies this
      ensures pressedKeys == old(pressedKeys) - {code} && keyBinds == old(keyBinds)
    {
      pressedKeys := pressedKeys - {code};
    }

    /** `addKeyBind`: bind (or rebind) the event to the key. */
    method AddKeyBind(eventName: string, key: string)
      modifies this
      ensures keyBinds == old(keyBinds)[eventName := key] && pressedKeys == old(pressedKeys)
      ensures CheckIfPressed(eventName) <==> key in pressedKeys
    {
      keyBinds := keyBinds[eventName := key];
    }

    /** `checkIfPressed`: the event's key is held; an unbound event is never pressed. */
    predicate CheckIfPressed(eventName: string)
      reads this
    {
      eventName in keyBinds && keyBinds[eventName] in pressedKeys
    }

    /**
     * `consume`: release the event's key so that it fires once. Only that
     * code is released: an event bound to another key keeps its state.
     */
    method Consume(eventName: string)
      modifies this
      ensures keyBinds == old(keyBinds)
      ensures pressedKeys == if eventName in keyBinds then old(pressedKeys) - {keyBinds[eventName]} else old(pressedKeys)
      ensures !CheckIfPressed(eventName)
      ensures eventName in keyBinds ==> forall e :: e in keyBinds && keyBinds[e] != keyBinds[eventName] ==> CheckIfPressed(e) == old(CheckIfPressed(e))
    {
      if eventName in keyBinds {
        pressedKeys := pressedKeys - {keyBinds[eventName]};
      }
    }
  }
}
