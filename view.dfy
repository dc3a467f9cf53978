/** What the form renders as a function of its mode and loading flag. */
module FormView {
  import opened FormValidation

  /** The text of the submit button. */
  function ButtonLabel(mode: string, loading: bool): (caption: string)
    ensures "loading" <= caption <==> loading
    ensures mode == RegisterMode ==> caption in {"loading...", "Join for free"}
    ensures mode != RegisterMode ==> caption in {"loading", "Let's Chat"}
  {
    assert "Join for free"[0] != 'l' && "Let's Chat"[0] != 'l';
    if mode == RegisterMode then
      (if loading then "loading..." else "Join for free")
    else
      (if loading then "loading" else "Let's Chat")
  }

  /** The footer under the form: a prompt and a link to the other page. */
  datatype FooterLink = FooterLink(prompt: string, text: string, href: string)

  function Footer(mode: string): (f: FooterLink)
    ensures f.href == "/" <==> mode == RegisterMode
    ensures f.href == "/register" <==> mode != RegisterMode
    ensures f.text == "Sign In Here" <==> f.href == "/"
    ensures f.text == (if mode == RegisterMode then "Sign In Here" else "Register Here")
    ensures f.prompt == (if mode == RegisterMode then "Already have an account?" else "Don't have an account?")
  {
    if mode == RegisterMode then
      FooterLink("Already have an account?", "Sign In Here", "/")
    else
      FooterLink("Don't have an account?", "Register Here", "/register")
  }

  /** The label changes between its idle and loading texts and back, and never to the other mode's texts. */
  lemma ButtonLabelDistinct(mode: string)
    ensures ButtonLabel(mode, true) != ButtonLabel(mode, false)
    ensures ButtonLabel(mode, false) != ButtonLabel(LoginMode, false) <==> mode == RegisterMode
  {
  }
}
