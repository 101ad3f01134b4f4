/**
 * `SignalNotifier`: the two channels a new live signal is announced on. Each
 * sender is gated by its own switch, reads the signal's fields while building
 * its message, and turns every exception (a missing field, a strength that is
 * not a number, a failed SMTP session or HTTP request) into `False`. What the
 * mail server and the Telegram API do is a parameter; the message texts are
 * not modelled.
 */
module Notifier {
  import opened Wrappers
  import opened Values

  /** `config.ENABLE_EMAIL` and `config.ENABLE_TELEGRAM`. */
  datatype Channels = Channels(enableEmail: bool, enableTelegram: bool)

  /**
   * How the outside world answers one delivery attempt: whether the SMTP
   * session (connect, STARTTLS, login, sendmail) completes, and whether the
   * Telegram `sendMessage` POST returns a success status.
   */
  datatype Delivery = Delivery(smtpOk: bool, telegramOk: bool)

  /** The fields both messages show. */
  const SignalFields: seq<string> :=
    ["direction", "symbol", "strength", "entry_price", "stop_loss", "take_profit", "reason", "time"]

  /** Reading `signal[k]` raises no KeyError for any of `keys`. */
  predicate HasFields(signal: Items, keys: seq<string>) {
    forall i :: 0 <= i < |keys| ==> Get(signal, keys[i]).Some?
  }

  lemma HasFieldsAppend(signal: Items, a: seq<string>, b: seq<string>)
    ensures HasFields(signal, a + b) <==> HasFields(signal, a) && HasFields(signal, b)
  {
    if HasFields(signal, a) && HasFields(signal, b) {
      forall i | 0 <= i < |a + b| ensures Get(signal, (a + b)[i]).Some? {
        if i >= |a| {
          assert (a + b)[i] == b[i - |a|];
        }
      }
    }
    if HasFields(signal, a + b) {
      forall i | 0 <= i < |b| ensures Get(signal, b[i]).Some? {
        assert b[i] == (a + b)[|a| + i];
      }
      forall i | 0 <= i < |a| ensures Get(signal, a[i]).Some? {
        assert a[i] == (a + b)[i];
      }
    }
  }

  /** The assessment shown next to the strength in the e-mail: buckets with lower bounds 8, 6 and 4. */
  function StrengthLabel(strength: real): (assessment: string)
    ensures assessment == "Very Strong" <==> 8.0 <= strength
    ensures assessment == "Strong" <==> 6.0 <= strength < 8.0
    ensures assessment == "Moderate" <==> 4.0 <= strength < 6.0
    ensures assessment == "Low" <==> strength < 4.0
  {
    if strength >= 8.0 then "Very Strong"
    else if strength >= 6.0 then "Strong"
    else if strength >= 4.0 then "Moderate"
    else "Low"
  }

  /** The buckets in increasing order. */
  function LabelRank(assessment: string): nat {
    if assessment == "Very Strong" then 3
    else if assessment == "Strong" then 2
    else if assessment == "Moderate" then 1
    else 0
  }

  /** A stronger signal never gets a weaker assessment. */
  lemma StrengthLabelMonotone(s: real, t: real)
    requires s <= t
    ensures LabelRank(StrengthLabel(s)) <= LabelRank(StrengthLabel(t))
    ensures StrengthLabel(s) == StrengthLabel(t) <==> LabelRank(StrengthLabel(s)) == LabelRank(StrengthLabel(t))
  {
  }

  /** `signal['strength'] >= 8` does not raise: the strength is present and a bool, an int or a float. */
  predicate NumericStrength(signal: Items) {
    Get(signal, "strength").Some? && PyFloatOf(Get(signal, "strength").value).Some?
  }

  /**
   * The reads `send_email_notification` makes of the signal before it talks to
   * the server: the subject's direction and symbol, the comparisons of the
   * strength with 8, 6 and 4 (a TypeError unless the strength is a bool, an int
   * or a float), then the body's remaining fields. The assessment, or None
   * where one of these raises.
   */
  function EmailAssessment(signal: Items): (r: Option<string>)
    ensures r.Some? <==> HasFields(signal, SignalFields) && NumericStrength(signal)
    ensures r.Some? ==> r == Some(StrengthLabel(PyFloatOf(Get(signal, "strength").value).value))
  {
    HasFieldsAppend(signal, ["direction", "symbol", "strength"], ["entry_price", "stop_loss", "take_profit", "reason", "time"]);
    assert SignalFields == ["direction", "symbol", "strength"] + ["entry_price", "stop_loss", "take_profit", "reason", "time"];
    if !HasFields(signal, ["direction", "symbol", "strength"]) then None
    else
      assert Get(signal, ["direction", "symbol", "strength"][2]).Some?;
      match PyFloatOf(Get(signal, "strength").value)
      case None => None
      case Some(x) =>
        if HasFields(signal, ["entry_price", "stop_loss", "take_profit", "reason", "time"]) then Some(StrengthLabel(x))
        else None
  }

  /** `send_email_notification`: sent exactly when e-mail is on, the signal has every field with a numeric strength, and the SMTP session completes. */
  function SendEmail(signal: Items, channels: Channels, delivery: Delivery): (sent: bool)
    ensures !channels.enableEmail ==> !sent
    ensures sent <==> channels.enableEmail && HasFields(signal, SignalFields)
                      && NumericStrength(signal) && delivery.smtpOk
  {
    if !channels.enableEmail then false
    else
      match EmailAssessment(signal)
      case None => false
      case Some(_) => delivery.smtpOk
  }

  /**
   * The reads `send_telegram_notification` makes of the signal: the direction
   * for the emoji, then every field of the message text. The strength is only
   * formatted, so any value will do.
   */
  predicate TelegramReadable(signal: Items)
  {
    && Get(signal, "direction").Some?
    && HasFields(signal, ["symbol", "entry_price", "stop_loss", "take_profit", "strength", "reason", "time"])
  }

  lemma TelegramReadableFields(signal: Items)
    ensures TelegramReadable(signal) <==> HasFields(signal, SignalFields)
  {
    var rest := ["symbol", "entry_price", "stop_loss", "take_profit", "strength", "reason", "time"];
    if TelegramReadable(signal) {
      assert forall i :: 0 <= i < |SignalFields| ==> SignalFields[i] == "direction" || SignalFields[i] in rest;
      forall i | 0 <= i < |SignalFields| ensures Get(signal, SignalFields[i]).Some? {
        if SignalFields[i] != "direction" {
          var j :| 0 <= j < |rest| && rest[j] == SignalFields[i];
        }
      }
    }
    if HasFields(signal, SignalFields) {
      assert Get(signal, SignalFields[0]).Some?;
      assert forall j :: 0 <= j < |rest| ==> rest[j] in SignalFields;
      forall j | 0 <= j < |rest| ensures Get(signal, rest[j]).Some? {
        var i :| 0 <= i < |SignalFields| && SignalFields[i] == rest[j];
      }
    }
  }

  /** `send_telegram_notification`: sent exactly when Telegram is on, the signal has every field, and the POST succeeds. */
  function SendTelegram(signal: Items, channels: Channels, delivery: Delivery): (sent: bool)
    ensures !channels.enableTelegram ==> !sent
    ensures sent <==> channels.enableTelegram && HasFields(signal, SignalFields) && delivery.telegramOk
  {
    TelegramReadableFields(signal);
    channels.enableTelegram && TelegramReadable(signal) && delivery.telegramOk
  }

  /**
   * A strength held as text is enough for Telegram but makes the e-mail's
   * comparison raise, so the same signal can reach one channel and not the other.
   */
  lemma TextStrengthOnlyTelegram(channels: Channels, delivery: Delivery)
    requires channels == Channels(true, true) && delivery == Delivery(true, true)
    ensures var signal := [("direction", Str("BUY")), ("symbol", Str("EURUSD")), ("strength", Str("7")),
                           ("entry_price", Float(1.1)), ("stop_loss", Float(1.09)), ("take_profit", Float(1.12)),
                           ("reason", Str("")), ("time", Str(""))];
            SendTelegram(signal, channels, delivery) && !SendEmail(signal, channels, delivery)
  {
    var signal := [("direction", Str("BUY")), ("symbol", Str("EURUSD")), ("strength", Str("7")),
                   ("entry_price", Float(1.1)), ("stop_loss", Float(1.09)), ("take_profit", Float(1.12)),
                   ("reason", Str("")), ("time", Str(""))];
    forall i | 0 <= i < |SignalFields| ensures Get(signal, SignalFields[i]).Some? {
      GetLast(signal, SignalFields[i]);
      assert signal[i].0 == SignalFields[i];
    }
    GetLast(signal, "strength");
    assert signal[2].0 == "strength";
  }

  /**
   * `notify`: the result holds an `email` entry exactly when e-mail is on and a
   * `telegram` entry exactly when Telegram is on, each with its own sender's
   * outcome and nothing else.
   */
  method Notify(signal: Items, channels: Channels, delivery: Delivery) returns (results: map<string, bool>)
    ensures results.Keys == (if channels.enableEmail then {"email"} else {}) + (if channels.enableTelegram then {"telegram"} else {})
    ensures "email" in results ==> results["email"] == SendEmail(signal, channels, delivery)
    ensures "telegram" in results ==> results["telegram"] == SendTelegram(signal, channels, delivery)
  {
    results := map[];
    if channels.enableEmail {
      var sent := SendEmail(signal, channels, delivery);
      results := results["email" := sent];
    }
    if channels.enableTelegram {
      var sent := SendTelegram(signal, channels, delivery);
      results := results["telegram" := sent];
    }
  }

  /** One channel's outcome does not depend on how the other channel's delivery goes. */
  lemma ChannelsIndependent(signal: Items, channels: Channels, d1: Delivery, d2: Delivery)
    ensures d1.smtpOk == d2.smtpOk ==> SendEmail(signal, channels, d1) == SendEmail(signal, channels, d2)
    ensures d1.telegramOk == d2.telegramOk ==> SendTelegram(signal, channels, d1) == SendTelegram(signal, channels, d2)
  {
  }
}
