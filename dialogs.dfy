/** The filter `TelegramBot.list_chats` applies while it walks the account's
    dialogs: a dialog is listed unless its name, lower-cased, ends with
    `bot`. */
module Dialogs {

  /** One entry of `client.iter_dialogs()`: its display name and its id. */
  datatype Dialog = Dialog(name: string, id: int)

  /** `str.lower` on one character, for the ASCII letters. */
  function LowerChar(c: char): char
  {
    if 'A' <= c <= 'Z' then ((c as int) + 32) as char else c
  }

  /** `str.lower` on a string, character by character. */
  function Lower(s: string): (r: string)
    ensures |r| == |s|
    ensures forall i :: 0 <= i < |s| ==> r[i] == LowerChar(s[i])
  {
    seq(|s|, i requires 0 <= i < |s| => LowerChar(s[i]))
  }

  /** `s.endswith(suffix)` */
  predicate EndsWith(s: string, suffix: string)
  {
    |suffix| <= |s| && s[|s| - |suffix|..] == suffix
  }

  /** `not dialog.name.lower().endswith('bot')` */
  predicate KeepDialog(name: string)
  {
    !EndsWith(Lower(name), "bot")
  }

  /** A dialog is dropped exactly when its last three characters spell
      `bot` in any mix of upper and lower case. */
  lemma KeepDialogIff(name: string)
    ensures !KeepDialog(name) <==>
      && |name| >= 3
      && name[|name| - 3] in {'b', 'B'}
      && name[|name| - 2] in {'o', 'O'}
      && name[|name| - 1] in {'t', 'T'}
  {
  }

  /** The dialogs `list_chats` prints, in the order `iter_dialogs` yields
      them. */
  function Kept(dialogs: seq<Dialog>): seq<Dialog>
  {
    if dialogs == [] then []
    else (if KeepDialog(dialogs[0].name) then [dialogs[0]] else []) + Kept(dialogs[1..])
  }

  lemma {:induction false} KeptAppend(a: seq<Dialog>, b: seq<Dialog>)
    ensures Kept(a + b) == Kept(a) + Kept(b)
  {
    if a == [] {
      assert a + b == b;
    } else {
      assert (a + b)[0] == a[0];
      assert (a + b)[1..] == a[1..] + b;
      KeptAppend(a[1..], b);
    }
  }

  /** The listing holds exactly the dialogs whose name passes the filter. */
  lemma {:induction false} KeptMembers(dialogs: seq<Dialog>)
    ensures forall d :: d in Kept(dialogs) <==> d in dialogs && KeepDialog(d.name)
  {
    if dialogs != [] {
      KeptMembers(dialogs[1..]);
      assert dialogs == [dialogs[0]] + dialogs[1..];
    }
  }

  /** The `async for` loop of `list_chats`: each dialog that passes the
      filter is printed, in turn. Returns the dialogs printed. */
  method ListChats(dialogs: seq<Dialog>) returns (listed: seq<Dialog>)
    ensures listed == Kept(dialogs)
    ensures forall d :: d in listed <==> d in dialogs && KeepDialog(d.name)
  {
    listed := [];
    var i := 0;
    while i < |dialogs|
      invariant 0 <= i <= |dialogs|
      invariant listed == Kept(dialogs[..i])
    {
      var dialog := dialogs[i];
      KeptAppend(dialogs[..i], [dialog]);
      assert dialogs[..i + 1] == dialogs[..i] + [dialog];
      assert Kept([dialog]) == if KeepDialog(dialog.name) then [dialog] else [] by {
        assert [dialog][1..] == [];
      }
      if KeepDialog(dialog.name) {
        listed := listed + [dialog];
      }
      i := i + 1;
    }
    assert dialogs[..i] == dialogs;
    KeptMembers(dialogs);
  }

  /** A bot is hidden whatever the case of its name; a name that merely
      contains `bot` is listed. */
  lemma Examples()
    ensures !KeepDialog("WeatherBot") && !KeepDialog("news_BOT")
    ensures KeepDialog("Volleyball chat") && KeepDialog("Bottle club")
  {
    KeepDialogIff("WeatherBot");
    KeepDialogIff("news_BOT");
    KeepDialogIff("Volleyball chat");
    KeepDialogIff("Bottle club");
  }
}
