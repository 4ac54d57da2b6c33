/**
 * The sign-in page (`src/pages/Auth.tsx`): a four-field form updated one field at a time,
 * the password visibility toggle, and the two submit handlers, whose toasts and navigations
 * are recorded in an effect log.
 */
module Auth {

  datatype Field = Name | Email | Password | ConfirmPassword

  datatype FormData = FormData(name: string, email: string, password: string, confirmPassword: string)
  {
    function Get(f: Field): string
    {
      match f
      case Name => name
      case Email => email
      case Password => password
      case ConfirmPassword => confirmPassword
    }

    /** `{...formData, [field]: value}`: the named field takes the value, the others keep theirs. */
    function Set(f: Field, value: string): (r: FormData)
      ensures r.Get(f) == value
      ensures forall g :: g != f ==> r.Get(g) == Get(g)
    {
      match f
      case Name => this.(name := value)
      case Email => this.(email := value)
      case Password => this.(password := value)
      case ConfirmPassword => this.(confirmPassword := value)
    }

    predicate PasswordsMatch() { password == confirmPassword }
  }

  const EmptyForm := FormData("", "", "", "")

  /** Two forms that agree on every field are the same form. */
  lemma FieldsDetermineForm(a: FormData, b: FormData)
    requires forall f :: a.Get(f) == b.Get(f)
    ensures a == b
  {
    assert a.Get(Name) == b.Get(Name) && a.Get(Email) == b.Get(Email);
    assert a.Get(Password) == b.Get(Password) && a.Get(ConfirmPassword) == b.Get(ConfirmPassword);
  }

  /** The last write to a field wins, and writing a field's own value changes nothing. */
  lemma SetProperties(form: FormData, f: Field, v: string, w: string)
    ensures form.Set(f, v).Set(f, w) == form.Set(f, w)
    ensures form.Set(f, form.Get(f)) == form
  {
    FieldsDetermineForm(form.Set(f, v).Set(f, w), form.Set(f, w));
    FieldsDetermineForm(form.Set(f, form.Get(f)), form);
  }

  /** Writes to different fields can be done in either order. */
  lemma SetCommutes(form: FormData, f: Field, g: Field, v: string, w: string)
    requires f != g
    ensures form.Set(f, v).Set(g, w) == form.Set(g, w).Set(f, v)
  {
    FieldsDetermineForm(form.Set(f, v).Set(g, w), form.Set(g, w).Set(f, v));
  }

  datatype Effect = Toast(message: string) | Navigate(path: string)

  const LoginToast := "Login successful! Welcome to the museum."
  const MismatchToast := "Passwords don't match!"
  const RegisterToast := "Registration successful! Welcome to the Liberation War Museum."

  /** What a registration attempt does: on mismatching passwords only the warning toast,
      otherwise the success toast and a navigation to the home page. */
  function RegisterEffects(form: FormData): (effects: seq<Effect>)
    ensures |effects| >= 1 && effects[0].Toast?
    ensures Navigate("/") in effects <==> form.PasswordsMatch()
    ensures effects[0] == Toast(MismatchToast) <==> !form.PasswordsMatch()
    ensures forall e :: e in effects && e.Navigate? ==> e.path == "/"
  {
    if form.password != form.confirmPassword then [Toast(MismatchToast)]
    else [Toast(RegisterToast), Navigate("/")]
  }

  class AuthPage {
    var showPassword: bool
    var formData: FormData
    /** Toasts shown and navigations requested so far, oldest first. */
    var effects: seq<Effect>

    constructor ()
      ensures !showPassword && formData == EmptyForm && effects == []
    {
      showPassword := false;
      formData := EmptyForm;
      effects := [];
    }

    /** An input's change event: only the field named by the input changes. */
    method HandleInputChange(field: Field, value: string)
      modifies this
      ensures formData == old(formData).Set(field, value)
      ensures showPassword == old(showPassword) && effects == old(effects)
    {
      formData := formData.Set(field, value);
    }

    /** The eye button of either password input. */
    method ToggleShowPassword()
      modifies this
      ensures showPassword == !old(showPassword)
      ensures formData == old(formData) && effects == old(effects)
    {
      showPassword := !showPassword;
    }

    /** Login checks no credential: it always greets and goes home. */
    method HandleLogin()
      modifies this
      ensures effects == old(effects) + [Toast(LoginToast), Navigate("/")]
      ensures formData == old(formData) && showPassword == old(showPassword)
    {
      effects := effects + [Toast(LoginToast)];
      effects := effects + [Navigate("/")];
    }

    /** Registration compares the two passwords and nothing else. */
    method HandleRegister()
      modifies this
      ensures effects == old(effects) + RegisterEffects(old(formData))
      ensures formData == old(formData) && showPassword == old(showPassword)
    {
      if formData.password != formData.confirmPassword {
        effects := effects + [Toast(MismatchToast)];
        return;
      }
      effects := effects + [Toast(RegisterToast)];
      effects := effects + [Navigate("/")];
    }
  }

  /** Typing the same password twice and registering navigates home; typing a different
      confirmation only warns. */
  method RegisterScenario(pw: string, other: string)
    requires pw != other
  {
    var page := new AuthPage();
    page.HandleInputChange(Email, "a@b.c");
    page.HandleInputChange(Password, pw);
    page.HandleInputChange(ConfirmPassword, other);
    page.HandleRegister();
    assert page.formData.password != page.formData.confirmPassword;
    assert page.effects == [Toast(MismatchToast)];
    page.HandleInputChange(ConfirmPassword, pw);
    page.HandleRegister();
    assert page.formData.PasswordsMatch();
    assert page.effects == [Toast(MismatchToast), Toast(RegisterToast), Navigate("/")];
  }
}
