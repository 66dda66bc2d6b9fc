/**
 The rotation objects: KeyRotator (apps/trapchat/src/lib/crypto.js) and the hook around it
 (apps/trapchat/src/hooks/useKeyRotation.js). A timer is the time at which it is due.
 */
module Rotators {
  import opened Options
  import opened KeyRotation

  datatype Sealed<T> = Sealed(key: nat, content: T)

  class KeyRotator {
    var currentKey: nat
    var previousKey: Option<nat>
    var timer: Option<nat>
    var graceTimer: Option<nat>
    const interval: nat

    ghost function View(): Rotator
      reads this
    {
      Rotator(currentKey, previousKey, graceTimer)
    }

    // Making a rotator and starting it with a key
    constructor (interval: nat, key: nat, now: nat)
      ensures View() == Rotator(key, None, None) && timer == Some(now + interval) && this.interval == interval
    {
      this.interval := interval;
      currentKey, previousKey, timer, graceTimer := key, None, Some(now + interval), None;
    }

    // Stopping keeps both keys, and leaves the previous one with no timer to clear it
    method Stop()
      modifies this
      ensures View() == old(View()).(grace := None) && timer == None
    {
      timer := None;
      graceTimer := None;
    }

    method AcceptKey(key: nat, now: nat)
      modifies this
      ensures View() == Changed(old(View()), key, now) && timer == old(timer)
      ensures currentKey == key && previousKey == Some(old(currentKey)) && graceTimer == Some(now + 30_000)
    {
      graceTimer := None;
      previousKey := Some(currentKey);
      currentKey := key;
      graceTimer := Some(now + 30000);
    }

    // The interval timer: the sections of a rotation between its awaits. First the current key is kept.
    method BeginRotation(now: nat) returns (oldKey: nat)
      modifies this
      ensures View() == Begun(old(View())) && oldKey == old(currentKey)
      ensures timer == Some(now + interval)
      ensures currentKey == oldKey && previousKey == Some(oldKey) && graceTimer == old(graceTimer)
    {
      timer := Some(now + interval);
      oldKey := currentKey;
      previousKey := Some(oldKey);
    }

    // Then the fresh random key is there
    method Switch(generated: nat)
      modifies this
      ensures View() == old(View()).(current := generated) && timer == old(timer)
      ensures currentKey == generated && previousKey == old(previousKey) && graceTimer == old(graceTimer)
    {
      currentKey := generated;
    }

    // When it is exported and announced, the grace period begins
    method BeginGrace(now: nat)
      modifies this
      ensures View() == Graced(old(View()), now) && timer == old(timer)
      ensures currentKey == old(currentKey) && previousKey == old(previousKey) && graceTimer == Some(now + 30_000)
    {
      graceTimer := Some(now + 30000);
    }

    method OnGrace()
      modifies this
      ensures View() == Cleared(old(View())) && timer == old(timer)
      ensures currentKey == old(currentKey) && previousKey == None && graceTimer == None
    {
      previousKey := None;
      graceTimer := None;
    }

    // The current key first, then the previous one
    method Decrypt<T>(c: Sealed<T>) returns (content: Option<T>)
      ensures content.Some? <==> Opens(View(), c.key)
      ensures content.Some? <==> c.key == currentKey || previousKey == Some(c.key)
      ensures content.Some? ==> content.value == c.content
    {
      if c.key == currentKey {
        return Some(c.content);
      }
      if previousKey.Some? && c.key == previousKey.value {
        return Some(c.content);
      }
      content := None;
    }
  }

  class RotationHook {
    var keyRef: nat
    const rotator: KeyRotator

    ghost predicate Valid()
      reads this, rotator
    {
      keyRef == rotator.currentKey
    }

    constructor (interval: nat, key: nat, now: nat)
      ensures Valid() && fresh(rotator) && rotator.View() == Rotator(key, None, None)
    {
      keyRef := key;
      rotator := new KeyRotator(interval, key, now);
    }

    // Both are back on one key, the rotator's new one, which goes out sealed under the one kept over the awaits
    method OnRotate(oldKey: nat, now: nat) returns (message: Sealed<nat>)
      modifies this, rotator
      ensures Valid() && rotator.View() == Graced(old(rotator.View()), now)
      ensures message == Sealed(oldKey, old(rotator.currentKey))
    {
      keyRef := rotator.currentKey;
      message := Sealed(oldKey, rotator.currentKey);
      rotator.BeginGrace(now);
    }

    // A rotation message from the peer up to the key's import: what it carries, if it opens
    method OpenRotation(message: Sealed<nat>) returns (newKey: Option<nat>)
      ensures newKey.Some? <==> Opens(rotator.View(), message.key)
      ensures newKey.Some? ==> newKey.value == message.content
    {
      newKey := rotator.Decrypt(message);
    }

    // And from there: hook and rotator are on the new key together, whatever they were on before
    method AcceptRotation(newKey: nat, now: nat)
      modifies this, rotator
      ensures Valid() && keyRef == newKey
      ensures rotator.View() == Changed(old(rotator.View()), newKey, now)
    {
      keyRef := newKey;
      rotator.AcceptKey(newKey, now);
    }
  }
}
