/** Best-effort translation into Ukrainian (`translate_to_uk`). Each remote
    provider is a function that answers `Some(translation)` or `None` when
    the call raised. */
module Translation {
  import opened Wrappers

  type Provider = string -> Option<string>

  /** `providers` tried in order on `text`: the answer of the first that
      succeeds, or `text` itself when all of them fail. */
  function FirstAnswer(providers: seq<Provider>, text: string): (r: string)
    ensures (forall i :: 0 <= i < |providers| ==> providers[i](text).None?) ==> r == text
    ensures forall k :: 0 <= k < |providers| && providers[k](text).Some? &&
                        (forall j :: 0 <= j < k ==> providers[j](text).None?) ==>
                        r == providers[k](text).value
    decreases |providers|
  {
    if providers == [] then text
    else match providers[0](text)
      case Some(t) => t
      case None =>
        var r := FirstAnswer(providers[1..], text);
        assert forall k :: 1 <= k < |providers| ==> providers[1..][k - 1] == providers[k];
        r
  }

  /** Number of providers `translate_to_uk` calls on `text`: none for the
      empty text, otherwise up to and including the first that succeeds. */
  function ProvidersCalled(providers: seq<Provider>, text: string): (n: nat)
    ensures n <= |providers|
    ensures text == "" ==> n == 0
    ensures text != "" ==> forall j :: 0 <= j < n - 1 ==> providers[j](text).None?
    ensures text != "" && n < |providers| ==> n > 0 && providers[n - 1](text).Some?
    decreases |providers|
  {
    if text == "" || providers == [] then 0
    else if providers[0](text).Some? then 1
    else
      var n := ProvidersCalled(providers[1..], text);
      assert forall j :: 1 <= j < |providers| ==> providers[1..][j - 1] == providers[j];
      1 + n
  }

  /** `translate_to_uk`: empty text is returned as it is; otherwise the first
      successful provider's answer, or the text unchanged if all fail. */
  function Translate(text: string, providers: seq<Provider>): (r: string)
    ensures text == "" ==> r == ""
    ensures (forall i :: 0 <= i < |providers| ==> providers[i](text).None?) ==> r == text
    ensures forall k :: 0 <= k < |providers| && text != "" && providers[k](text).Some? &&
                        (forall j :: 0 <= j < k ==> providers[j](text).None?) ==>
                        r == providers[k](text).value
  {
    if text == "" then text else FirstAnswer(providers, text)
  }

  /** Providers after the first success do not matter: the answer is the
      one given by the providers actually called. */
  lemma {:induction false} FirstAnswerOfCalled(providers: seq<Provider>, text: string)
    requires text != ""
    ensures FirstAnswer(providers, text) == FirstAnswer(providers[..ProvidersCalled(providers, text)], text)
    decreases |providers|
  {
    var n := ProvidersCalled(providers, text);
    if providers == [] {
    } else if providers[0](text).Some? {
      assert providers[..n] == [providers[0]];
    } else {
      var m := ProvidersCalled(providers[1..], text);
      FirstAnswerOfCalled(providers[1..], text);
      assert providers[..n][0] == providers[0];
      assert providers[..n][1..] == providers[1..][..m];
    }
  }

  /** Translation stops at the first success: translating with only the
      providers called gives the same text. */
  lemma TranslateStopsAtFirstSuccess(text: string, providers: seq<Provider>)
    ensures Translate(text, providers) == Translate(text, providers[..ProvidersCalled(providers, text)])
  {
    if text != "" {
      FirstAnswerOfCalled(providers, text);
    }
  }

  /** With no provider answering, translation passes the text through. */
  lemma AllProvidersFail(text: string, providers: seq<Provider>)
    requires forall i :: 0 <= i < |providers| ==> providers[i](text).None?
    ensures Translate(text, providers) == text
    ensures text != "" ==> ProvidersCalled(providers, text) == |providers|
  {
  }
}
